/**
 * What the template compiler's functions (module Compiler) guarantee:
 * how each pass moves the indentation and the fragment buffer, which
 * lines every compiled template starts and ends with, that errors are
 * raised by the first pass only, how an include is spliced in, which tag
 * names count as `break`, and that derived names never collide.
 */
module CompilerProperties {
  import opened Results
  import opened PyStr
  import opened Tokenizer
  import opened Emitter
  import opened Compiler

  /** A token the passes handle as a tag: `re_variable` does not match it and `re_tag` does. */
  predicate IsTag(token: string)
  {
    !MatchesVariable(token) && MatchesTag(token)
  }

  /** The fragment a non-tag token buffers. */
  function Fragment(token: string): string
  {
    if MatchesVariable(token) then VariableFragment(token) else Repr(token)
  }

  function Fragments(tokens: seq<string>): seq<string>
  {
    if |tokens| == 0 then [] else [Fragment(tokens[0])] + Fragments(tokens[1..])
  }

  /** The buffer after a pass over `tokens`: every tag empties it, every other token adds its fragment. */
  function Pending(buffered: seq<string>, tokens: seq<string>): seq<string>
    decreases |tokens|
  {
    if |tokens| == 0 then buffered
    else Pending(if IsTag(tokens[0]) then [] else buffered + [Fragment(tokens[0])], tokens[1..])
  }

  /** The net indentation a statement of this name leaves behind. */
  function NameDelta(name: string): int
  {
    if name in {"if", "for"} then IndentStep
    else if name in {"endif", "endfor"} then -IndentStep
    else 0
  }

  /** The tag body's words, for a token handled as a tag. */
  function TagWords(token: string): seq<string>
  {
    Split(TagText(token))
  }

  function TokenDelta(token: string): int
  {
    if IsTag(token) && TagWords(token) != [] then NameDelta(TagWords(token)[0]) else 0
  }

  /** The net indentation one pass over `tokens` adds. */
  function IndentDelta(tokens: seq<string>): int
  {
    if |tokens| == 0 then 0 else TokenDelta(tokens[0]) + IndentDelta(tokens[1..])
  }

  /** A statement of this name emits a line: an opener, or a piece of "break". */
  predicate EmitsLine(name: string)
  {
    name in {"if", "elif", "else", "for"} || Contains("break", name)
  }

  /**
   * The lines one token adds in a pass: a tag adds its flush and its
   * statement line, and in the first pass an include also adds the child's
   * block and the append line.
   */
  function StepLines(token: string, first: bool): nat
  {
    if IsTag(token) && TagWords(token) != [] then
      1 + (if EmitsLine(TagWords(token)[0]) then 1 else 0) + (if first && TagWords(token)[0] == "include" then 2 else 0)
    else 0
  }

  function PassLines(tokens: seq<string>, first: bool): nat
  {
    if |tokens| == 0 then 0 else StepLines(tokens[0], first) + PassLines(tokens[1..], first)
  }

  /** A tag with a name: the tokens that flush once in each pass. */
  predicate IsNamedTag(token: string)
  {
    IsTag(token) && TagWords(token) != []
  }

  /** How many tags among `tokens` have a name. */
  function NamedTagCount(tokens: seq<string>): nat
  {
    if |tokens| == 0 then 0 else (if IsNamedTag(tokens[0]) then 1 else 0) + NamedTagCount(tokens[1..])
  }

  /** How many of those tags are statements that emit a line of their own. */
  function StatementLineCount(tokens: seq<string>): nat
  {
    if |tokens| == 0 then 0
    else (if IsNamedTag(tokens[0]) && EmitsLine(TagWords(tokens[0])[0]) then 1 else 0) + StatementLineCount(tokens[1..])
  }

  /** How many of those tags are includes. */
  function IncludeCount(tokens: seq<string>): nat
  {
    if |tokens| == 0 then 0
    else (if IsNamedTag(tokens[0]) && TagWords(tokens[0])[0] == "include" then 1 else 0) + IncludeCount(tokens[1..])
  }

  predicate NoTags(tokens: seq<string>)
  {
    forall i :: 0 <= i < |tokens| ==> !IsTag(tokens[i])
  }

  /** Every tag among `tokens` has a name, so `tag.split()[0]` does not raise. */
  predicate NamedTags(tokens: seq<string>)
  {
    forall i :: 0 <= i < |tokens| && IsTag(tokens[i]) ==> TagWords(tokens[i]) != []
  }

  // ---------------------------------------------------------------- statements

  /** A statement moves the indent by its name's delta, keeps the buffer, and adds at most one line: `<tag>:` for a block opener (one level out for `elif`/`else`), the bare tag for a piece of "break". */
  lemma StatementShape(st: State, tag: string, name: string)
    ensures Statement(st, tag, name).indent == st.indent + NameDelta(name)
    ensures Statement(st, tag, name).buffered == st.buffered
    ensures st.lines <= Statement(st, tag, name).lines
    ensures |Statement(st, tag, name).lines| == |st.lines| + (if EmitsLine(name) then 1 else 0)
    ensures EmitsLine(name) ==>
      Statement(st, tag, name).lines[|st.lines|] ==
      Text(Pad(if name in {"elif", "else"} then st.indent - IndentStep else st.indent) +
        (if name in {"if", "elif", "else", "for"} then tag + ":" else tag))
  {
    SubstringLetter("endif", 1);
    SubstringLetter("endfor", 1);
  }

  /** Every letter of a substring of "break" is a letter of "break". */
  lemma SubstringLetter(name: string, k: nat)
    requires k < |name|
    ensures Contains("break", name) ==> name[k] in "break"
  {
    if Contains("break", name) {
      var i :| 0 <= i <= 5 && name <= "break"[i..];
      assert name[k] == "break"[i + k];
    }
  }

  /** The names `tag_name in ('break')` accepts: exactly the sixteen substrings of "break". */
  lemma BreakLikeNames(name: string)
    ensures Contains("break", name) <==>
      name in {"", "b", "r", "e", "a", "k", "br", "re", "ea", "ak", "bre", "rea", "eak", "brea", "reak", "break"}
  {
    if Contains("break", name) {
      var i :| 0 <= i <= 5 && name <= "break"[i..];
      var n := |name|;
      assert name == "break"[i..i + n];
      if i == 0 {
        if n == 0 {
          assert name == "";
        } else if n == 1 {
          assert name == "b";
        } else if n == 2 {
          assert name == "br";
        } else if n == 3 {
          assert name == "bre";
        } else if n == 4 {
          assert name == "brea";
        } else if n == 5 {
          assert name == "break";
        }
      } else if i == 1 {
        if n == 0 {
          assert name == "";
        } else if n == 1 {
          assert name == "r";
        } else if n == 2 {
          assert name == "re";
        } else if n == 3 {
          assert name == "rea";
        } else if n == 4 {
          assert name == "reak";
        }
      } else if i == 2 {
        if n == 0 {
          assert name == "";
        } else if n == 1 {
          assert name == "e";
        } else if n == 2 {
          assert name == "ea";
        } else if n == 3 {
          assert name == "eak";
        }
      } else if i == 3 {
        if n == 0 {
          assert name == "";
        } else if n == 1 {
          assert name == "a";
        } else if n == 2 {
          assert name == "ak";
        }
      } else if i == 4 {
        if n == 0 {
          assert name == "";
        } else if n == 1 {
          assert name == "k";
        }
      }
    } else {
      forall i | 0 <= i <= 5 ensures !(name <= "break"[i..]) { }
      assert name !in {"", "b", "r", "e", "a", "k", "br", "re", "ea", "ak", "bre", "rea", "eak", "brea", "reak", "break"} by {
        assert "" <= "break"[0..];
        assert "b" <= "break"[0..] && "br" <= "break"[0..] && "bre" <= "break"[0..] && "brea" <= "break"[0..];
        assert "r" <= "break"[1..] && "re" <= "break"[1..] && "rea" <= "break"[1..] && "reak" <= "break"[1..];
        assert "e" <= "break"[2..] && "ea" <= "break"[2..] && "eak" <= "break"[2..];
        assert "a" <= "break"[3..] && "ak" <= "break"[3..] && "k" <= "break"[4..];
      }
    }
  }

  // ---------------------------------------------------------------- the two passes

  /**
   * The lines of a pass, by kind: one flush per named tag, one line per
   * statement that emits one, and in the first pass a child block and an
   * append line per include.
   */
  lemma {:induction false} PassLinesCount(tokens: seq<string>, first: bool)
    ensures PassLines(tokens, first)
         == NamedTagCount(tokens) + StatementLineCount(tokens) + (if first then 2 * IncludeCount(tokens) else 0)
    decreases |tokens|
  {
    if |tokens| > 0 {
      PassLinesCount(tokens[1..], first);
      if IsNamedTag(tokens[0]) && TagWords(tokens[0])[0] == "include" {
        assert !EmitsLine("include") by { SubstringLetter("include", 0); }
      }
    }
  }

  /** One first-pass step: the indent moves by the token's delta, lines are only appended, and the buffer is emptied by a tag or grows by the token's fragment. */
  lemma FirstStepShape(st: State, token: string, funcName: string, resultVar: string, files: Files, depth: nat)
    requires FirstStep(st, token, funcName, resultVar, files, depth).Ok?
    ensures var s := FirstStep(st, token, funcName, resultVar, files, depth).value;
      && s.indent == st.indent + TokenDelta(token)
      && st.lines <= s.lines
      && s.buffered == (if IsTag(token) then [] else st.buffered + [Fragment(token)])
      && (!IsTag(token) ==> s.lines == st.lines)
      && |s.lines| == |st.lines| + StepLines(token, true)
      && (IsTag(token) ==> |s.lines| > |st.lines| && s.lines[|st.lines|] == Text(Pad(st.indent) + FlushLine(resultVar, st.buffered)))
  {
    if MatchesVariable(token) {
      assert FirstStep(st, token, funcName, resultVar, files, depth) == Ok(Pushed(st, VariableFragment(token)));
    } else if MatchesTag(token) {
      assert FirstStep(st, token, funcName, resultVar, files, depth) == TagStep(st, token, funcName, resultVar, files, depth);
      TagStepShape(st, token, funcName, resultVar, files, depth);
    } else {
      assert FirstStep(st, token, funcName, resultVar, files, depth) == Ok(Pushed(st, Repr(token)));
    }
  }

  /** A tag in the first pass: a flush, then the statement or the include. */
  lemma TagStepShape(st: State, token: string, funcName: string, resultVar: string, files: Files, depth: nat)
    requires IsTag(token) && TagStep(st, token, funcName, resultVar, files, depth).Ok?
    ensures var s := TagStep(st, token, funcName, resultVar, files, depth).value;
      && TagWords(token) != []
      && s.indent == st.indent + TokenDelta(token)
      && st.lines <= s.lines
      && s.buffered == []
      && |s.lines| == |st.lines| + StepLines(token, true)
      && |s.lines| > |st.lines| && s.lines[|st.lines|] == Text(Pad(st.indent) + FlushLine(resultVar, st.buffered))
  {
    var words := TagWords(token);
    var flushed := Flushed(st, resultVar);
    var tag := TagText(token);
    assert flushed.lines == st.lines + [Text(Pad(st.indent) + FlushLine(resultVar, st.buffered))];
    if words[0] != "include" {
      assert TagStep(st, token, funcName, resultVar, files, depth) == Ok(Statement(flushed, tag, words[0]));
      StatementShape(flushed, tag, words[0]);
    } else {
      assert TagStep(st, token, funcName, resultVar, files, depth)
          == IncludeStep(flushed, tag, funcName, resultVar, files, depth);
      IncludeStepShape(flushed, tag, funcName, resultVar, files, depth);
      assert !EmitsLine("include") by { SubstringLetter("include", 0); }
    }
  }

  /** An include that succeeds adds two entries, the child's block and the append line, and keeps the indent and the buffer. */
  lemma IncludeStepShape(st: State, tag: string, funcName: string, resultVar: string, files: Files, depth: nat)
    requires IncludeStep(st, tag, funcName, resultVar, files, depth).Ok?
    ensures var s := IncludeStep(st, tag, funcName, resultVar, files, depth).value;
      && s.indent == st.indent
      && s.buffered == st.buffered
      && st.lines <= s.lines
      && |s.lines| == |st.lines| + 2
  {
    var filename := IncludeFileName(tag).value;
    var child := IncludedChild(filename, st.indent, funcName, resultVar, files, depth).value;
    assert IncludeStep(st, tag, funcName, resultVar, files, depth).value
        == WithLine(WithBlock(st, child.built.lines), AppendLine(resultVar, child.funcName));
  }

  /** The whole first pass, by induction over the tokens. */
  lemma {:induction false} FirstPassShape(st: State, tokens: seq<string>, funcName: string, resultVar: string, files: Files, depth: nat)
    requires FirstPass(st, tokens, funcName, resultVar, files, depth).Ok?
    ensures var s := FirstPass(st, tokens, funcName, resultVar, files, depth).value;
      && s.indent == st.indent + IndentDelta(tokens)
      && st.lines <= s.lines
      && s.buffered == Pending(st.buffered, tokens)
      && (NoTags(tokens) ==> s.lines == st.lines)
      && |s.lines| == |st.lines| + PassLines(tokens, true)
    decreases |tokens|
  {
    if |tokens| > 0 {
      FirstStepShape(st, tokens[0], funcName, resultVar, files, depth);
      var next := FirstStep(st, tokens[0], funcName, resultVar, files, depth).value;
      FirstPassShape(next, tokens[1..], funcName, resultVar, files, depth);
      assert NoTags(tokens) ==> NoTags(tokens[1..]) && !IsTag(tokens[0]);
    }
  }

  /** One second-pass step: as in the first pass, except that an include only flushes. */
  lemma SecondStepShape(st: State, token: string, resultVar: string)
    requires SecondStep(st, token, resultVar).Ok?
    ensures var s := SecondStep(st, token, resultVar).value;
      && s.indent == st.indent + TokenDelta(token)
      && st.lines <= s.lines
      && s.buffered == (if IsTag(token) then [] else st.buffered + [Fragment(token)])
      && (!IsTag(token) ==> s.lines == st.lines)
      && |s.lines| == |st.lines| + StepLines(token, false)
      && (IsTag(token) ==> |s.lines| > |st.lines| && s.lines[|st.lines|] == Text(Pad(st.indent) + FlushLine(resultVar, st.buffered)))
  {
    if IsTag(token) {
      StatementShape(Flushed(st, resultVar), TagText(token), TagWords(token)[0]);
    }
  }

  lemma {:induction false} SecondPassShape(st: State, tokens: seq<string>, resultVar: string)
    requires SecondPass(st, tokens, resultVar).Ok?
    ensures var s := SecondPass(st, tokens, resultVar).value;
      && s.indent == st.indent + IndentDelta(tokens)
      && st.lines <= s.lines
      && s.buffered == Pending(st.buffered, tokens)
      && (NoTags(tokens) ==> s.lines == st.lines)
      && |s.lines| == |st.lines| + PassLines(tokens, false)
    decreases |tokens|
  {
    if |tokens| > 0 {
      SecondStepShape(st, tokens[0], resultVar);
      SecondPassShape(SecondStep(st, tokens[0], resultVar).value, tokens[1..], resultVar);
      assert NoTags(tokens) ==> NoTags(tokens[1..]) && !IsTag(tokens[0]);
    }
  }

  /** A first pass that succeeds has met a name in every tag. */
  lemma {:induction false} FirstPassNamesTags(st: State, tokens: seq<string>, funcName: string, resultVar: string, files: Files, depth: nat)
    requires FirstPass(st, tokens, funcName, resultVar, files, depth).Ok?
    ensures NamedTags(tokens)
    decreases |tokens|
  {
    if |tokens| > 0 {
      var next := FirstStep(st, tokens[0], funcName, resultVar, files, depth).value;
      FirstPassNamesTags(next, tokens[1..], funcName, resultVar, files, depth);
      forall i | 0 <= i < |tokens| && IsTag(tokens[i]) ensures TagWords(tokens[i]) != [] {
        if i > 0 {
          assert tokens[i] == tokens[1..][i - 1];
          assert IsTag(tokens[1..][i - 1]);
        } else {
          assert FirstStep(st, tokens[0], funcName, resultVar, files, depth)
              == TagStep(st, tokens[0], funcName, resultVar, files, depth);
        }
      }
    }
  }

  /** The second pass fails exactly where a tag has no name. */
  lemma {:induction false} SecondPassSucceeds(st: State, tokens: seq<string>, resultVar: string)
    ensures SecondPass(st, tokens, resultVar).Ok? <==> NamedTags(tokens)
    decreases |tokens|
  {
    if |tokens| > 0 {
      assert NamedTags(tokens) <==> (IsTag(tokens[0]) ==> TagWords(tokens[0]) != []) && NamedTags(tokens[1..]) by {
        forall i | 1 <= i < |tokens| ensures tokens[i] == tokens[1..][i - 1] { }
      }
      if SecondStep(st, tokens[0], resultVar).Ok? {
        SecondPassSucceeds(SecondStep(st, tokens[0], resultVar).value, tokens[1..], resultVar);
      }
    }
  }

  /** Errors are raised by the first pass only: after it succeeds, the second pass cannot fail. */
  lemma ErrorsComeFromFirstPass(st: State, rawText: string, funcName: string, resultVar: string, files: Files, depth: nat)
    requires FirstPass(st, Tokenize(rawText), funcName, resultVar, files, depth).Ok?
    ensures Parse(st, rawText, funcName, resultVar, files, depth).Ok?
  {
    var tokens := Tokenize(rawText);
    FirstPassNamesTags(st, tokens, funcName, resultVar, files, depth);
    SecondPassSucceeds(FirstPass(st, tokens, funcName, resultVar, files, depth).value, tokens, resultVar);
  }

  /** A pass over tokens none of which is a tag only buffers their fragments, in order. */
  lemma {:induction false} FirstPassNoTags(st: State, tokens: seq<string>, funcName: string, resultVar: string, files: Files, depth: nat)
    requires NoTags(tokens)
    ensures FirstPass(st, tokens, funcName, resultVar, files, depth) == Ok(st.(buffered := st.buffered + Fragments(tokens)))
    decreases |tokens|
  {
    if |tokens| > 0 {
      assert !IsTag(tokens[0]) && NoTags(tokens[1..]);
      var next := st.(buffered := st.buffered + [Fragment(tokens[0])]);
      assert FirstStep(st, tokens[0], funcName, resultVar, files, depth) == Ok(next);
      FirstPassNoTags(next, tokens[1..], funcName, resultVar, files, depth);
      assert next.buffered + Fragments(tokens[1..]) == st.buffered + Fragments(tokens);
    } else {
      assert st.buffered + Fragments(tokens) == st.buffered;
    }
  }

  lemma {:induction false} SecondPassNoTags(st: State, tokens: seq<string>, resultVar: string)
    requires NoTags(tokens)
    ensures SecondPass(st, tokens, resultVar) == Ok(st.(buffered := st.buffered + Fragments(tokens)))
    decreases |tokens|
  {
    if |tokens| > 0 {
      assert !IsTag(tokens[0]) && NoTags(tokens[1..]);
      var next := st.(buffered := st.buffered + [Fragment(tokens[0])]);
      assert SecondStep(st, tokens[0], resultVar) == Ok(next);
      SecondPassNoTags(next, tokens[1..], resultVar);
      assert next.buffered + Fragments(tokens[1..]) == st.buffered + Fragments(tokens);
    } else {
      assert st.buffered + Fragments(tokens) == st.buffered;
    }
  }

  // ---------------------------------------------------------------- a whole template

  /**
   * Every compiled template is one function: its header at the starting
   * indent, the result list one step in, then the body, one last flush
   * and the return line; nothing is left buffered, and each pass moves the
   * indent by the template's net statement nesting.
   */
  lemma CompileShape(rawText: string, indent: int, funcName: string, resultVar: string, files: Files, depth: nat)
    requires Compile(rawText, indent, funcName, resultVar, files, depth).Ok?
    ensures var s := Compile(rawText, indent, funcName, resultVar, files, depth).value;
      var tokens := Tokenize(rawText);
      && s.buffered == []
      && s.indent == indent + 2 * IndentDelta(tokens)
      && |s.lines| == 4 + PassLines(tokens, true) + PassLines(tokens, false)
      && |s.lines| == 4 + 2 * (NamedTagCount(tokens) + StatementLineCount(tokens)) + 2 * IncludeCount(tokens)
      && s.lines[0] == Text(Pad(indent) + HeaderLine(funcName))
      && s.lines[1] == Text(Pad(indent + IndentStep) + InitLine(resultVar))
      && s.lines[|s.lines| - 2] == Text(Pad(s.indent + IndentStep) + FlushLine(resultVar, Pending(Pending([], tokens), tokens)))
      && s.lines[|s.lines| - 1] == Text(Pad(s.indent + IndentStep) + ReturnLine(resultVar))
  {
    var tokens := Tokenize(rawText);
    var started := WithLine(Indented(WithLine(State(indent, [], []), HeaderLine(funcName))), InitLine(resultVar));
    assert started.lines == [Text(Pad(indent) + HeaderLine(funcName)), Text(Pad(indent + IndentStep) + InitLine(resultVar))];
    assert started.indent == indent + IndentStep && started.buffered == [];
    var parsed := Parse(started, rawText, funcName, resultVar, files, depth);
    assert parsed.Ok?;
    ParseShape(started, rawText, funcName, resultVar, files, depth);
    var p := parsed.value;
    var s := Compile(rawText, indent, funcName, resultVar, files, depth).value;
    assert s == Dedented(WithLine(Flushed(p, resultVar), ReturnLine(resultVar)));
    assert s.indent + IndentStep == p.indent;
    assert s.lines == p.lines + [Text(Pad(p.indent) + FlushLine(resultVar, p.buffered)), Text(Pad(p.indent) + ReturnLine(resultVar))];
    assert s.lines[0] == p.lines[0] && s.lines[1] == p.lines[1];
  }

  /** Both loops of `_parse_text` together: they keep what was emitted before, move the indent twice by the net nesting and add the lines both passes count. */
  lemma ParseShape(st: State, rawText: string, funcName: string, resultVar: string, files: Files, depth: nat)
    requires Parse(st, rawText, funcName, resultVar, files, depth).Ok?
    ensures var s := Parse(st, rawText, funcName, resultVar, files, depth).value;
      var tokens := Tokenize(rawText);
      && s.indent == st.indent + 2 * IndentDelta(tokens)
      && st.lines <= s.lines
      && s.buffered == Pending(Pending(st.buffered, tokens), tokens)
      && |s.lines| == |st.lines| + PassLines(tokens, true) + PassLines(tokens, false)
      && |s.lines| == |st.lines| + 2 * (NamedTagCount(tokens) + StatementLineCount(tokens)) + 2 * IncludeCount(tokens)
  {
    var tokens := Tokenize(rawText);
    var first := FirstPass(st, tokens, funcName, resultVar, files, depth);
    assert first.Ok?;
    FirstPassShape(st, tokens, funcName, resultVar, files, depth);
    assert Parse(st, rawText, funcName, resultVar, files, depth) == SecondPass(first.value, tokens, resultVar);
    SecondPassShape(first.value, tokens, resultVar);
    PassLinesCount(tokens, true);
    PassLinesCount(tokens, false);
  }

  /** A template with no tags compiles to four lines, and its one flush holds every fragment twice. */
  lemma CompileNoTags(rawText: string, indent: int, funcName: string, resultVar: string, files: Files, depth: nat)
    requires NoTags(Tokenize(rawText))
    ensures var fragments := Fragments(Tokenize(rawText));
      Compile(rawText, indent, funcName, resultVar, files, depth) == Ok(State(indent, [
        Text(Pad(indent) + HeaderLine(funcName)),
        Text(Pad(indent + IndentStep) + InitLine(resultVar)),
        Text(Pad(indent + IndentStep) + FlushLine(resultVar, fragments + fragments)),
        Text(Pad(indent + IndentStep) + ReturnLine(resultVar))], []))
  {
    var tokens := Tokenize(rawText);
    var started := WithLine(Indented(WithLine(State(indent, [], []), HeaderLine(funcName))), InitLine(resultVar));
    FirstPassNoTags(started, tokens, funcName, resultVar, files, depth);
    var first := started.(buffered := Fragments(tokens));
    assert started.buffered + Fragments(tokens) == Fragments(tokens);
    assert FirstPass(started, tokens, funcName, resultVar, files, depth) == Ok(first);
    SecondPassNoTags(first, tokens, resultVar);
    var parsed := first.(buffered := Fragments(tokens) + Fragments(tokens));
    assert Parse(started, rawText, funcName, resultVar, files, depth) == Ok(parsed);
    var done := Dedented(WithLine(Flushed(parsed, resultVar), ReturnLine(resultVar)));
    assert Compile(rawText, indent, funcName, resultVar, files, depth) == Ok(done);
    assert started.lines == [Text(Pad(indent) + HeaderLine(funcName)), Text(Pad(indent + IndentStep) + InitLine(resultVar))];
    assert done.indent == indent && done.buffered == [];
    assert done.lines == started.lines + [
      Text(Pad(indent + IndentStep) + FlushLine(resultVar, Fragments(tokens) + Fragments(tokens))),
      Text(Pad(indent + IndentStep) + ReturnLine(resultVar))];
    assert done.lines == [
      Text(Pad(indent) + HeaderLine(funcName)),
      Text(Pad(indent + IndentStep) + InitLine(resultVar)),
      Text(Pad(indent + IndentStep) + FlushLine(resultVar, Fragments(tokens) + Fragments(tokens))),
      Text(Pad(indent + IndentStep) + ReturnLine(resultVar))];
  }

  // ---------------------------------------------------------------- includes

  /**
   * A successful include splices in the child template's code, whose
   * function is defined at the current indent under the derived name, and
   * then appends that function's result: exactly two new lines.
   */
  lemma IncludeSplice(st: State, tag: string, funcName: string, resultVar: string, files: Files, depth: nat)
    requires IncludeStep(st, tag, funcName, resultVar, files, depth).Ok?
    ensures IncludeFileName(tag).Some? && IncludeFileName(tag).value in files && depth > 0
    ensures var file := files[IncludeFileName(tag).value];
      var childName := DerivedName(funcName, file.pathHash);
      var child := Compile(file.text, st.indent, childName, DerivedName(resultVar, file.pathHash), files, depth - 1);
      var s := IncludeStep(st, tag, funcName, resultVar, files, depth).value;
      && child.Ok?
      && s.indent == st.indent && s.buffered == st.buffered
      && s.lines == st.lines + [Block(child.value.lines), Text(Pad(st.indent) + AppendLine(resultVar, childName))]
      && child.value.lines[0] == Text(Pad(st.indent) + HeaderLine(childName))
  {
    var filename := IncludeFileName(tag).value;
    var file := files[filename];
    var childName := DerivedName(funcName, file.pathHash);
    CompileShape(file.text, st.indent, childName, DerivedName(resultVar, file.pathHash), files, depth - 1);
  }

  /** The characters `str(hash(path)).replace('-', '_')` can produce. */
  predicate IsSuffixChar(c: char)
  {
    IsDigit(c) || c == '_'
  }

  predicate IsIdentifierStart(c: char)
  {
    'a' <= c <= 'z' || 'A' <= c <= 'Z' || c == '_'
  }

  /** An ASCII Python identifier. */
  predicate IsIdentifier(s: string)
  {
    |s| > 0 && IsIdentifierStart(s[0]) && forall k :: 1 <= k < |s| ==> IsIdentifierStart(s[k]) || IsDigit(s[k])
  }

  lemma IntToStrChars(n: int)
    ensures |IntToStr(n)| > 0
    ensures forall k :: 0 <= k < |IntToStr(n)| ==> IsDigit(IntToStr(n)[k]) || IntToStr(n)[k] == '-'
  {
    if n < 0 {
      assert forall k :: 1 <= k < |IntToStr(n)| ==> IntToStr(n)[k] == NatToStr(-n)[k - 1];
    }
  }

  /** A name suffix is made of digits and at most a leading underscore, which marks a negative hash. */
  lemma NameSuffixShape(h: int)
    ensures |NameSuffix(h)| > 0
    ensures forall k :: 0 <= k < |NameSuffix(h)| ==> IsSuffixChar(NameSuffix(h)[k])
    ensures NameSuffix(h)[0] == '_' <==> h < 0
  {
    IntToStrChars(h);
    if h >= 0 {
      assert IsDigit(NatToStr(h)[0]);
    }
  }

  /** Deriving keeps a name an identifier, so the generated `def` and list names are valid. */
  lemma DerivedNameIsIdentifier(name: string, h: int)
    requires IsIdentifier(name)
    ensures IsIdentifier(DerivedName(name, h))
  {
    NameSuffixShape(h);
    var d := DerivedName(name, h);
    forall k | 1 <= k < |d| ensures IsIdentifierStart(d[k]) || IsDigit(d[k]) {
      if k > |name| {
        assert d[k] == NameSuffix(h)[k - |name| - 1];
      }
    }
  }

  /** Different path hashes give different names under the same parent: sibling includes of different files never clash. */
  lemma DerivedNameInjective(name: string, a: int, b: int)
    ensures DerivedName(name, a) == DerivedName(name, b) ==> a == b
  {
    if DerivedName(name, a) == DerivedName(name, b) {
      var sa, sb := IntToStr(a), IntToStr(b);
      assert NameSuffix(a) == DerivedName(name, a)[|name| + 1..];
      assert NameSuffix(b) == DerivedName(name, b)[|name| + 1..];
      IntToStrChars(a);
      IntToStrChars(b);
      assert |sa| == |sb|;
      forall k | 0 <= k < |sa| ensures sa[k] == sb[k] {
        assert NameSuffix(a)[k] == NameSuffix(b)[k];
      }
      assert sa == sb;
      IntToStrInjective(a, b);
    }
  }
}
