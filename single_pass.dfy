/**
 * The compiler as its structure evidently intends it, next to the compiler
 * as written (module Compiler).
 *
 * As written, `_parse_text` (main.py:62-96) runs the handler loop and then
 * a second loop that repeats what the handlers did, so every literal and
 * variable fragment is emitted twice; and `tag_name in ('break')` tests a
 * substring of "break", since `('break')` is a string and not a one-element
 * tuple.  `CompileOnce` makes one pass and emits a bare statement only for
 * `break`; the lemmas here show the defect of the code as written on a
 * concrete template and prove the intended behaviour of the correction.
 */
module SinglePass {
  import opened Results
  import opened PyStr
  import opened Tokenizer
  import opened Emitter
  import opened Compiler
  import opened CompilerProperties

  /** `_handle_statement` with `tag_name == 'break'` as the bare-statement test. */
  function FixedStatement(st: State, tag: string, name: string): State
  {
    if name in {"if", "elif", "else", "for"} then
      var reopened := if name in {"elif", "else"} then Dedented(st) else st;
      Indented(WithLine(reopened, tag + ":"))
    else if name == "break" then WithLine(st, tag)
    else if name in {"endif", "endfor"} then Dedented(st)
    else st
  }

  function OnceStep(st: State, token: string, funcName: string, resultVar: string, files: Files, depth: nat)
    : Result<State, CompileError>
    decreases depth, 3, 0
  {
    if MatchesVariable(token) then Ok(Pushed(st, VariableFragment(token)))
    else if MatchesTag(token) then OnceTag(st, token, funcName, resultVar, files, depth)
    else Ok(Pushed(st, Repr(token)))
  }

  function OnceTag(st: State, token: string, funcName: string, resultVar: string, files: Files, depth: nat)
    : Result<State, CompileError>
    decreases depth, 2, 0
  {
    var flushed := Flushed(st, resultVar);
    var tag := TagText(token);
    var words := Split(tag);
    if |words| == 0 then Err(MissingTagName(tag))
    else if words[0] == "include" then OnceInclude(flushed, tag, funcName, resultVar, files, depth)
    else Ok(FixedStatement(flushed, tag, words[0]))
  }

  function OnceInclude(st: State, tag: string, funcName: string, resultVar: string, files: Files, depth: nat)
    : Result<State, CompileError>
    decreases depth, 1, 0
  {
    match IncludeFileName(tag)
    case None => Err(MissingIncludeName(tag))
    case Some(filename) =>
      match OnceChild(filename, st.indent, funcName, resultVar, files, depth)
      case Err(e) => Err(e)
      case Ok(child) => Ok(WithLine(WithBlock(st, child.built.lines), AppendLine(resultVar, child.funcName)))
  }

  function OnceChild(filename: string, indent: int, funcName: string, resultVar: string, files: Files, depth: nat)
    : Result<Child, CompileError>
    decreases depth, 0, 0
  {
    if filename !in files then Err(IncludeNotFound(filename))
    else if depth == 0 then Err(RecursionLimit)
    else
      var file := files[filename];
      var childName := DerivedName(funcName, file.pathHash);
      match CompileOnce(file.text, indent, childName, DerivedName(resultVar, file.pathHash), files, depth - 1)
      case Err(e) => Err(e)
      case Ok(built) => Ok(Child(childName, built))
  }

  function OncePass(st: State, tokens: seq<string>, funcName: string, resultVar: string, files: Files, depth: nat)
    : Result<State, CompileError>
    decreases depth, 4, |tokens|
  {
    if |tokens| == 0 then Ok(st)
    else
      match OnceStep(st, tokens[0], funcName, resultVar, files, depth)
      case Err(e) => Err(e)
      case Ok(next) => OncePass(next, tokens[1..], funcName, resultVar, files, depth)
  }

  /** The corrected compiler: one pass over the tokens, includes compiled the same way. */
  function CompileOnce(rawText: string, indent: int, funcName: string, resultVar: string, files: Files, depth: nat)
    : Result<State, CompileError>
    decreases depth, 5, 0
  {
    var started := WithLine(Indented(WithLine(State(indent, [], []), HeaderLine(funcName))), InitLine(resultVar));
    match OncePass(started, Tokenize(rawText), funcName, resultVar, files, depth)
    case Err(e) => Err(e)
    case Ok(parsed) => Ok(Dedented(WithLine(Flushed(parsed, resultVar), ReturnLine(resultVar))))
  }

  // ---------------------------------------------------------------- what the generated code outputs

  /**
   * What `"".join` of the evaluated fragments gives when every fragment is
   * a string literal; None when one is not (a `str(...)` call).
   */
  function LiteralOutput(fragments: seq<string>): Option<string>
  {
    if |fragments| == 0 then Some("")
    else
      match Unrepr(fragments[0])
      case None => None
      case Some(head) =>
        match LiteralOutput(fragments[1..])
        case None => None
        case Some(tail) => Some(head + tail)
  }

  /** Text that holds no `{` holds no delimiter. */
  lemma NoBraceNoDelimiter(s: string)
    requires '{' !in s
    ensures NoDelimiterIn(s)
  {
    forall a, b | 0 <= a <= b <= |s| ensures !IsDelimiter(s[a..b]) {
      if a < b {
        assert s[a..b][0] == s[a];
      }
    }
  }

  /** Text without delimiters is one literal token, and its one fragment is its `repr`. */
  lemma PlainTextTokens(rawText: string)
    requires NoDelimiterIn(rawText)
    ensures Tokenize(rawText) == [rawText]
    ensures NoTags(Tokenize(rawText)) && Fragments(Tokenize(rawText)) == [Repr(rawText)]
  {
    TokenizeNoDelimiter(rawText);
    LiteralClass(rawText);
  }

  // ---------------------------------------------------------------- as written: every fragment twice

  /**
   * As written, a template with no delimiters compiles to a function whose
   * one `extend` holds the text's literal twice, so it renders the text
   * twice.
   */
  lemma DoubledText(rawText: string, indent: int, funcName: string, resultVar: string, files: Files, depth: nat)
    requires NoDelimiterIn(rawText)
    ensures Compile(rawText, indent, funcName, resultVar, files, depth) == Ok(State(indent, [
        Text(Pad(indent) + HeaderLine(funcName)),
        Text(Pad(indent + IndentStep) + InitLine(resultVar)),
        Text(Pad(indent + IndentStep) + FlushLine(resultVar, [Repr(rawText), Repr(rawText)])),
        Text(Pad(indent + IndentStep) + ReturnLine(resultVar))], []))
    ensures LiteralOutput([Repr(rawText), Repr(rawText)]) == Some(rawText + rawText)
  {
    PlainTextTokens(rawText);
    CompileNoTags(rawText, indent, funcName, resultVar, files, depth);
    TwiceOutput(rawText);
  }

  /** Two copies of a text's `repr` in one list output the text twice. */
  lemma TwiceOutput(rawText: string)
    ensures LiteralOutput([Repr(rawText), Repr(rawText)]) == Some(rawText + rawText)
  {
    ReprRoundTrip(rawText);
    var fs := [Repr(rawText), Repr(rawText)];
    assert fs[1..] == [Repr(rawText)] && fs[1..][1..] == [];
    assert LiteralOutput(fs[1..]) == Some(rawText + "");
    assert rawText + "" == rawText;
  }

  /** The template `abc` generates `__result.extend(['abc','abc'])`, which outputs `abcabc`. */
  lemma AbcRendersTwice(rawText: string, files: Files, depth: nat)
    requires rawText == "abc"
    ensures var r := Compile(rawText, 0, "__func_name", "__result", files, depth);
      r.Ok? && |r.value.lines| == 4 && r.value.lines[2] == Text(Pad(IndentStep) + "__result.extend(['abc','abc'])")
    ensures LiteralOutput([Repr(rawText), Repr(rawText)]) == Some("abcabc") && "abcabc" != rawText
  {
    AbcCompiles(rawText, files, depth);
    AbcOutput(rawText);
  }

  lemma AbcCompiles(rawText: string, files: Files, depth: nat)
    requires rawText == "abc"
    ensures var r := Compile(rawText, 0, "__func_name", "__result", files, depth);
      r.Ok? && |r.value.lines| == 4 && r.value.lines[2] == Text(Pad(IndentStep) + "__result.extend(['abc','abc'])")
  {
    NoBraceNoDelimiter(rawText);
    DoubledText(rawText, 0, "__func_name", "__result", files, depth);
    ReprOfAbc();
    FlushOfAbc();
    assert Repr(rawText) == "'abc'";
    assert FlushLine("__result", [Repr(rawText), Repr(rawText)]) == "__result.extend(['abc','abc'])";
    assert Pad(0 + IndentStep) == Pad(IndentStep);
  }

  lemma AbcOutput(rawText: string)
    requires rawText == "abc"
    ensures LiteralOutput([Repr(rawText), Repr(rawText)]) == Some("abcabc") && "abcabc" != rawText
  {
    TwiceOutput(rawText);
    assert |rawText| == 3 && rawText + rawText == "abcabc";
  }

  lemma FlushOfAbc()
    ensures FlushLine("__result", ["'abc'", "'abc'"]) == "__result.extend(['abc','abc'])"
  {
  }

  lemma ReprOfAbc()
    ensures Repr("abc") == "'abc'"
  {
    assert ReprQuote("abc") == '\'';
    assert Escape("abc", '\'') == "abc";
  }

  /** As written, any name that is a piece of "break" is emitted as a bare statement: `{% e %}` adds the line `e`. */
  lemma BareStatementForPieceOfBreak(st: State)
    ensures Statement(st, "e", "e") == st.(lines := st.lines + [Text(Pad(st.indent) + "e")])
    ensures FixedStatement(st, "e", "e") == st
  {
    assert Contains("break", "e") by {
      assert "e" <= "break"[2..];
    }
  }

  // ---------------------------------------------------------------- the correction

  /** A corrected statement moves the indent as before and emits a bare line for `break` alone. */
  lemma FixedStatementShape(st: State, tag: string, name: string)
    ensures FixedStatement(st, tag, name).indent == st.indent + NameDelta(name)
    ensures FixedStatement(st, tag, name).buffered == st.buffered
    ensures st.lines <= FixedStatement(st, tag, name).lines
    ensures |FixedStatement(st, tag, name).lines| == |st.lines| + (if name in {"if", "elif", "else", "for", "break"} then 1 else 0)
  {
  }

  /** One pass over tokens none of which is a tag buffers each fragment once. */
  lemma {:induction false} OncePassNoTags(st: State, tokens: seq<string>, funcName: string, resultVar: string, files: Files, depth: nat)
    requires NoTags(tokens)
    ensures OncePass(st, tokens, funcName, resultVar, files, depth) == Ok(st.(buffered := st.buffered + Fragments(tokens)))
    decreases |tokens|
  {
    if |tokens| > 0 {
      assert !IsTag(tokens[0]) && NoTags(tokens[1..]);
      var next := st.(buffered := st.buffered + [Fragment(tokens[0])]);
      assert OnceStep(st, tokens[0], funcName, resultVar, files, depth) == Ok(next);
      OncePassNoTags(next, tokens[1..], funcName, resultVar, files, depth);
      assert next.buffered + Fragments(tokens[1..]) == st.buffered + Fragments(tokens);
    } else {
      assert st.buffered + Fragments(tokens) == st.buffered;
    }
  }

  /** Corrected, a template with no delimiters renders its text exactly once. */
  lemma SingleText(rawText: string, indent: int, funcName: string, resultVar: string, files: Files, depth: nat)
    requires NoDelimiterIn(rawText)
    ensures CompileOnce(rawText, indent, funcName, resultVar, files, depth) == Ok(State(indent, [
        Text(Pad(indent) + HeaderLine(funcName)),
        Text(Pad(indent + IndentStep) + InitLine(resultVar)),
        Text(Pad(indent + IndentStep) + FlushLine(resultVar, [Repr(rawText)])),
        Text(Pad(indent + IndentStep) + ReturnLine(resultVar))], []))
    ensures LiteralOutput([Repr(rawText)]) == Some(rawText)
  {
    PlainTextTokens(rawText);
    var started := WithLine(Indented(WithLine(State(indent, [], []), HeaderLine(funcName))), InitLine(resultVar));
    OncePassNoTags(started, [rawText], funcName, resultVar, files, depth);
    var parsed := started.(buffered := [Repr(rawText)]);
    assert started.buffered + Fragments([rawText]) == [Repr(rawText)];
    assert OncePass(started, Tokenize(rawText), funcName, resultVar, files, depth) == Ok(parsed);
    var done := Dedented(WithLine(Flushed(parsed, resultVar), ReturnLine(resultVar)));
    assert CompileOnce(rawText, indent, funcName, resultVar, files, depth) == Ok(done);
    assert done.lines == [
      Text(Pad(indent) + HeaderLine(funcName)),
      Text(Pad(indent + IndentStep) + InitLine(resultVar)),
      Text(Pad(indent + IndentStep) + FlushLine(resultVar, [Repr(rawText)])),
      Text(Pad(indent + IndentStep) + ReturnLine(resultVar))];
    ReprRoundTrip(rawText);
    assert [Repr(rawText)][1..] == [];
    assert LiteralOutput([Repr(rawText)]) == Some(rawText + "");
    assert rawText + "" == rawText;
  }

  /** One corrected step moves the indent, appends lines and buffers exactly as a first-pass step does. */
  lemma OnceStepShape(st: State, token: string, funcName: string, resultVar: string, files: Files, depth: nat)
    requires OnceStep(st, token, funcName, resultVar, files, depth).Ok?
    ensures var s := OnceStep(st, token, funcName, resultVar, files, depth).value;
      && s.indent == st.indent + TokenDelta(token)
      && st.lines <= s.lines
      && s.buffered == (if IsTag(token) then [] else st.buffered + [Fragment(token)])
  {
    if IsTag(token) {
      var words := TagWords(token);
      var flushed := Flushed(st, resultVar);
      var tag := TagText(token);
      if words[0] != "include" {
        FixedStatementShape(flushed, tag, words[0]);
      } else {
        assert OnceStep(st, token, funcName, resultVar, files, depth)
            == OnceInclude(flushed, tag, funcName, resultVar, files, depth);
        var filename := IncludeFileName(tag).value;
        var child := OnceChild(filename, flushed.indent, funcName, resultVar, files, depth).value;
        assert OnceInclude(flushed, tag, funcName, resultVar, files, depth).value
            == WithLine(WithBlock(flushed, child.built.lines), AppendLine(resultVar, child.funcName));
      }
    }
  }

  lemma {:induction false} OncePassShape(st: State, tokens: seq<string>, funcName: string, resultVar: string, files: Files, depth: nat)
    requires OncePass(st, tokens, funcName, resultVar, files, depth).Ok?
    ensures var s := OncePass(st, tokens, funcName, resultVar, files, depth).value;
      && s.indent == st.indent + IndentDelta(tokens)
      && st.lines <= s.lines
      && s.buffered == Pending(st.buffered, tokens)
    decreases |tokens|
  {
    if |tokens| > 0 {
      OnceStepShape(st, tokens[0], funcName, resultVar, files, depth);
      var next := OnceStep(st, tokens[0], funcName, resultVar, files, depth).value;
      OncePassShape(next, tokens[1..], funcName, resultVar, files, depth);
    }
  }

  /**
   * Corrected, a compiled template moves the indent by its statement
   * nesting once, so a template whose `if`/`for` tags are all closed ends
   * at the indent it started at; its last flush holds the fragments after
   * the last tag, once.
   */
  lemma CompileOnceShape(rawText: string, indent: int, funcName: string, resultVar: string, files: Files, depth: nat)
    requires CompileOnce(rawText, indent, funcName, resultVar, files, depth).Ok?
    ensures var s := CompileOnce(rawText, indent, funcName, resultVar, files, depth).value;
      var tokens := Tokenize(rawText);
      && s.buffered == []
      && s.indent == indent + IndentDelta(tokens)
      && |s.lines| >= 4
      && s.lines[0] == Text(Pad(indent) + HeaderLine(funcName))
      && s.lines[1] == Text(Pad(indent + IndentStep) + InitLine(resultVar))
      && s.lines[|s.lines| - 2] == Text(Pad(s.indent + IndentStep) + FlushLine(resultVar, Pending([], tokens)))
      && s.lines[|s.lines| - 1] == Text(Pad(s.indent + IndentStep) + ReturnLine(resultVar))
  {
    var tokens := Tokenize(rawText);
    var started := WithLine(Indented(WithLine(State(indent, [], []), HeaderLine(funcName))), InitLine(resultVar));
    assert started.lines == [Text(Pad(indent) + HeaderLine(funcName)), Text(Pad(indent + IndentStep) + InitLine(resultVar))];
    assert OncePass(started, tokens, funcName, resultVar, files, depth).Ok?;
    OncePassShape(started, tokens, funcName, resultVar, files, depth);
  }

  // ---------------------------------------------------------------- the two compilers side by side

  /** Tags both compilers handle alike: named, not includes, and no piece of "break" but "break" itself. */
  predicate PlainTags(tokens: seq<string>)
  {
    forall i :: 0 <= i < |tokens| && IsTag(tokens[i]) ==>
      && TagWords(tokens[i]) != []
      && TagWords(tokens[i])[0] != "include"
      && (Contains("break", TagWords(tokens[i])[0]) ==> TagWords(tokens[i])[0] == "break")
  }

  /** For every name but the pieces of "break" other than "break", both statement handlers agree. */
  lemma StatementAgrees(st: State, tag: string, name: string)
    requires Contains("break", name) ==> name == "break"
    ensures Statement(st, tag, name) == FixedStatement(st, tag, name)
  {
    assert Contains("break", "break") by {
      assert "break" <= "break"[0..];
    }
  }

  /** Over plain tags, each pass of the code as written is the corrected pass. */
  lemma {:induction false} PassesAgree(st: State, tokens: seq<string>, funcName: string, resultVar: string, files: Files, depth: nat)
    requires PlainTags(tokens)
    ensures FirstPass(st, tokens, funcName, resultVar, files, depth) == OncePass(st, tokens, funcName, resultVar, files, depth)
    ensures SecondPass(st, tokens, resultVar) == OncePass(st, tokens, funcName, resultVar, files, depth)
    ensures OncePass(st, tokens, funcName, resultVar, files, depth).Ok?
    decreases |tokens|
  {
    if |tokens| > 0 {
      assert PlainTags(tokens[1..]) by {
        forall i | 0 <= i < |tokens[1..]| ensures tokens[1..][i] == tokens[i + 1] { }
      }
      if IsTag(tokens[0]) {
        var words := TagWords(tokens[0]);
        assert words != [] && words[0] != "include" && (Contains("break", words[0]) ==> words[0] == "break");
        var flushed := Flushed(st, resultVar);
        StatementAgrees(flushed, TagText(tokens[0]), words[0]);
        assert OnceStep(st, tokens[0], funcName, resultVar, files, depth)
            == OnceTag(st, tokens[0], funcName, resultVar, files, depth)
            == Ok(FixedStatement(flushed, TagText(tokens[0]), words[0]));
        assert FirstStep(st, tokens[0], funcName, resultVar, files, depth)
            == TagStep(st, tokens[0], funcName, resultVar, files, depth)
            == Ok(Statement(flushed, TagText(tokens[0]), words[0]));
      } else {
        assert OnceStep(st, tokens[0], funcName, resultVar, files, depth) == Ok(Pushed(st, Fragment(tokens[0])));
      }
      var once := OnceStep(st, tokens[0], funcName, resultVar, files, depth);
      assert once.Ok?;
      assert FirstStep(st, tokens[0], funcName, resultVar, files, depth) == once;
      assert SecondStep(st, tokens[0], resultVar) == once;
      PassesAgree(once.value, tokens[1..], funcName, resultVar, files, depth);
    }
  }

  /**
   * The defect in one statement: over plain tags, the code as written
   * parses a template by running the corrected pass twice, the second time
   * from where the first left off.
   */
  lemma ParseRunsPassTwice(st: State, rawText: string, funcName: string, resultVar: string, files: Files, depth: nat)
    requires PlainTags(Tokenize(rawText))
    ensures var tokens := Tokenize(rawText);
      var once := OncePass(st, tokens, funcName, resultVar, files, depth);
      && once.Ok?
      && Parse(st, rawText, funcName, resultVar, files, depth) == OncePass(once.value, tokens, funcName, resultVar, files, depth)
  {
    var tokens := Tokenize(rawText);
    PassesAgree(st, tokens, funcName, resultVar, files, depth);
    assert OncePass(st, tokens, funcName, resultVar, files, depth).Ok?;
    PassesAgree(OncePass(st, tokens, funcName, resultVar, files, depth).value, tokens, funcName, resultVar, files, depth);
  }
}
