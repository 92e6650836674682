/**
 * The template compiler (main.py, class Template, lines 31-159).
 *
 * The first half states, as functions on values, what each step of the
 * compiler does to the builder's indentation, the builder's lines and the
 * pending-fragment buffer; the second half is the `Template` class, whose
 * methods change that state step by step as the source does and are proved
 * to agree with the functions.  Properties of the functions are proved in
 * module CompilerProperties.
 */
module Compiler {
  import opened Results
  import opened PyStr
  import opened Tokenizer
  import opened Emitter

  /** Why compilation stops: each is an exception escaping `Template(...)` in the source. */
  datatype CompileError =
    | MissingTagName(tag: string)        // IndexError from `tag.split()[0]` on a blank tag body
    | MissingIncludeName(tag: string)    // IndexError from `tag.split()[1]` on an include without a file name
    | IncludeNotFound(filename: string)  // `open` of an include file that does not exist
    | RecursionLimit                     // RecursionError: includes nested deeper than the interpreter allows

  datatype Outcome = Pass | Fail(error: CompileError)

  /** An include file as the file system gives it: `hash` of its resolved path, and its text. */
  datatype IncludeFile = IncludeFile(pathHash: int, text: string)

  /**
   * The template directory as the compiler sees it: each file name, as
   * written in an include tag once its quotes are stripped, mapped to the
   * file it resolves to.
   */
  type Files = map<string, IncludeFile>

  /** The compiler's working state: the builder's indent and lines, and `buffered`. */
  datatype State = State(indent: int, lines: seq<Line>, buffered: seq<string>)

  /** A compiled include: the child template's `func_name` and its finished state. */
  datatype Child = Child(funcName: string, built: State)

  function StatusOf<T>(r: Result<T, CompileError>): Outcome
  {
    if r.Ok? then Pass else Fail(r.error)
  }

  // ---------------------------------------------------------------- text of the generated code

  /** The characters stripped from a variable token (`'{} '`), a tag token (`'{%} '`) and an include file name. */
  const VariableChars: set<char> := {'{', '}', ' '}
  const TagChars: set<char> := {'{', '%', '}', ' '}
  const QuoteChars: set<char> := {'"', '\''}

  /** The fragment a `{{...}}` token buffers: `str(<token stripped of braces and blanks>)`. */
  function VariableFragment(token: string): string
  {
    "str(" + Strip(token, VariableChars) + ")"
  }

  /** The body of a tag token: `token.strip('{%} ')`. */
  function TagText(token: string): string
  {
    Strip(token, TagChars)
  }

  /** The line `flush_buffer` emits: `<result_var>.extend([<b1>,...,<bn>])`. */
  function FlushLine(resultVar: string, buffered: seq<string>): string
  {
    resultVar + ".extend([" + JoinWith(',', buffered) + "])"
  }

  function HeaderLine(funcName: string): string
  {
    "def " + funcName + "():"
  }

  function InitLine(resultVar: string): string
  {
    resultVar + " = []"
  }

  function ReturnLine(resultVar: string): string
  {
    "return \"\".join(" + resultVar + ")"
  }

  function AppendLine(resultVar: string, childFuncName: string): string
  {
    resultVar + ".append(" + childFuncName + "())"
  }

  /** `str(hash(template_path)).replace('-', '_')`. */
  function NameSuffix(pathHash: int): string
  {
    ReplaceChar(IntToStr(pathHash), '-', '_')
  }

  /** The name an include derives from the including template's name: `'{}_{}'.format(name, suffix)`. */
  function DerivedName(name: string, pathHash: int): string
  {
    name + "_" + NameSuffix(pathHash)
  }

  /** `tag.split()[1].strip('"\'')`; None where `split()[1]` raises IndexError. */
  function IncludeFileName(tag: string): Option<string>
  {
    var words := Split(tag);
    if |words| < 2 then None else Some(Strip(words[1], QuoteChars))
  }

  // ---------------------------------------------------------------- one step at a time

  /** `add_line(code)` on the state's builder. */
  function WithLine(st: State, code: string): State
  {
    st.(lines := st.lines + [Text(Pad(st.indent) + code)])
  }

  /** `add(child_builder)` on the state's builder. */
  function WithBlock(st: State, child: seq<Line>): State
  {
    st.(lines := st.lines + [Block(child)])
  }

  /** `forward()`. */
  function Indented(st: State): State
  {
    st.(indent := st.indent + IndentStep)
  }

  /** `backward()`. */
  function Dedented(st: State): State
  {
    st.(indent := st.indent - IndentStep)
  }

  /** `flush_buffer()`. */
  function Flushed(st: State, resultVar: string): State
  {
    WithLine(st, FlushLine(resultVar, st.buffered)).(buffered := [])
  }

  /** `buffered.append(fragment)`. */
  function Pushed(st: State, fragment: string): State
  {
    st.(buffered := st.buffered + [fragment])
  }

  /**
   * `_handle_statement(tag, tag_name)` (main.py:124-133, repeated inline at
   * 86-94).  `tag_name in ('break')` tests a substring of the string
   * "break", since `('break')` is not a tuple.
   */
  function Statement(st: State, tag: string, name: string): State
  {
    if name in {"if", "elif", "else", "for"} then
      var reopened := if name in {"elif", "else"} then Dedented(st) else st;
      Indented(WithLine(reopened, tag + ":"))
    else if Contains("break", name) then WithLine(st, tag)
    else if name in {"endif", "endfor"} then Dedented(st)
    else st
  }

  /** One token of the first pass (main.py:70-76): the handler its classification selects. */
  function FirstStep(st: State, token: string, funcName: string, resultVar: string, files: Files, depth: nat)
    : Result<State, CompileError>
    decreases depth, 3, 0
  {
    if MatchesVariable(token) then Ok(Pushed(st, VariableFragment(token)))
    else if MatchesTag(token) then TagStep(st, token, funcName, resultVar, files, depth)
    else Ok(Pushed(st, Repr(token)))
  }

  /** `_handle_tag(token)` (main.py:105-112). */
  function TagStep(st: State, token: string, funcName: string, resultVar: string, files: Files, depth: nat)
    : Result<State, CompileError>
    decreases depth, 2, 0
  {
    var flushed := Flushed(st, resultVar);
    var tag := TagText(token);
    var words := Split(tag);
    if |words| == 0 then Err(MissingTagName(tag))
    else if words[0] == "include" then IncludeStep(flushed, tag, funcName, resultVar, files, depth)
    else Ok(Statement(flushed, tag, words[0]))
  }

  /** `_handle_include(tag)` (main.py:114-122). */
  function IncludeStep(st: State, tag: string, funcName: string, resultVar: string, files: Files, depth: nat)
    : Result<State, CompileError>
    decreases depth, 1, 0
  {
    match IncludeFileName(tag)
    case None => Err(MissingIncludeName(tag))
    case Some(filename) =>
      match IncludedChild(filename, st.indent, funcName, resultVar, files, depth)
      case Err(e) => Err(e)
      case Ok(child) => Ok(WithLine(WithBlock(st, child.built.lines), AppendLine(resultVar, child.funcName)))
  }

  /**
   * `_parse_another_template_file(filename)` (main.py:135-150): the child
   * template compiled at the current indent, under names derived from ours.
   * `depth` bounds how deeply includes may nest.
   */
  function IncludedChild(filename: string, indent: int, funcName: string, resultVar: string, files: Files, depth: nat)
    : Result<Child, CompileError>
    decreases depth, 0, 0
  {
    if filename !in files then Err(IncludeNotFound(filename))
    else if depth == 0 then Err(RecursionLimit)
    else
      var file := files[filename];
      var childName := DerivedName(funcName, file.pathHash);
      match Compile(file.text, indent, childName, DerivedName(resultVar, file.pathHash), files, depth - 1)
      case Err(e) => Err(e)
      case Ok(built) => Ok(Child(childName, built))
  }

  /** The first `for token in tokens` loop (main.py:70-76). */
  function FirstPass(st: State, tokens: seq<string>, funcName: string, resultVar: string, files: Files, depth: nat)
    : Result<State, CompileError>
    decreases depth, 4, |tokens|
  {
    if |tokens| == 0 then Ok(st)
    else
      match FirstStep(st, tokens[0], funcName, resultVar, files, depth)
      case Err(e) => Err(e)
      case Ok(next) => FirstPass(next, tokens[1..], funcName, resultVar, files, depth)
  }

  /** One token of the second loop (main.py:79-96): includes are only flushed for. */
  function SecondStep(st: State, token: string, resultVar: string): Result<State, CompileError>
  {
    if MatchesVariable(token) then Ok(Pushed(st, VariableFragment(token)))
    else if MatchesTag(token) then
      var flushed := Flushed(st, resultVar);
      var tag := TagText(token);
      var words := Split(tag);
      if |words| == 0 then Err(MissingTagName(tag)) else Ok(Statement(flushed, tag, words[0]))
    else Ok(Pushed(st, Repr(token)))
  }

  /** The second `for token in tokens` loop (main.py:78-96). */
  function SecondPass(st: State, tokens: seq<string>, resultVar: string): Result<State, CompileError>
    decreases |tokens|
  {
    if |tokens| == 0 then Ok(st)
    else
      match SecondStep(st, tokens[0], resultVar)
      case Err(e) => Err(e)
      case Ok(next) => SecondPass(next, tokens[1..], resultVar)
  }

  /** `_parse_text()` (main.py:62-96): split the text, then both loops over the same tokens. */
  function Parse(st: State, rawText: string, funcName: string, resultVar: string, files: Files, depth: nat)
    : Result<State, CompileError>
    decreases depth, 5, 0
  {
    var tokens := Tokenize(rawText);
    match FirstPass(st, tokens, funcName, resultVar, files, depth)
    case Err(e) => Err(e)
    case Ok(parsed) => SecondPass(parsed, tokens, resultVar)
  }

  /** `Template(raw_text, indent, func_name=..., result_var=...)`: the builder's final state (main.py:33-60). */
  function Compile(rawText: string, indent: int, funcName: string, resultVar: string, files: Files, depth: nat)
    : Result<State, CompileError>
    decreases depth, 6, 0
  {
    var started := WithLine(Indented(WithLine(State(indent, [], []), HeaderLine(funcName))), InitLine(resultVar));
    match Parse(started, rawText, funcName, resultVar, files, depth)
    case Err(e) => Err(e)
    case Ok(parsed) => Ok(Dedented(WithLine(Flushed(parsed, resultVar), ReturnLine(resultVar))))
  }

  // ---------------------------------------------------------------- the Template class

  class Template {
    const rawText: string
    const funcName: string
    const resultVar: string
    const files: Files
    const codeBuilder: CodeBuilder
    var buffered: seq<string>

    /** The state the functions above describe. */
    ghost function Abs(): State
      reads this, codeBuilder
    {
      State(codeBuilder.indent, codeBuilder.lines, buffered)
    }

    /** The field set-up of `__init__` (main.py:36-43): a fresh builder at `indent`, nothing buffered. */
    constructor (rawText: string, indent: int, funcName: string, resultVar: string, files: Files)
      ensures this.rawText == rawText && this.funcName == funcName && this.resultVar == resultVar
      ensures this.files == files
      ensures fresh(codeBuilder) && Abs() == State(indent, [], [])
    {
      this.rawText := rawText;
      this.funcName := funcName;
      this.resultVar := resultVar;
      this.files := files;
      codeBuilder := new CodeBuilder(indent);
      buffered := [];
    }

    /**
     * The code generation of `__init__` (main.py:51-60): header, result list,
     * both passes, a last flush, the return line, and the builder back at
     * its starting indentation step.
     */
    method Build(depth: nat) returns (o: Outcome)
      requires codeBuilder.lines == [] && buffered == []
      modifies this, codeBuilder
      decreases depth, 5
      ensures o == StatusOf(Compile(rawText, old(codeBuilder.indent), funcName, resultVar, files, depth))
      ensures o.Pass? ==> Abs() == Compile(rawText, old(codeBuilder.indent), funcName, resultVar, files, depth).value
    {
      codeBuilder.AddLine(HeaderLine(funcName));
      codeBuilder.Forward();
      codeBuilder.AddLine(InitLine(resultVar));
      o := ParseText(depth);
      if o.Fail? {
        return;
      }
      FlushBuffer();
      codeBuilder.AddLine(ReturnLine(resultVar));
      codeBuilder.Backward();
    }

    /** `_parse_text()` (main.py:62-96). */
    method ParseText(depth: nat) returns (o: Outcome)
      modifies this, codeBuilder
      decreases depth, 4
      ensures o == StatusOf(Parse(old(Abs()), rawText, funcName, resultVar, files, depth))
      ensures o.Pass? ==> Abs() == Parse(old(Abs()), rawText, funcName, resultVar, files, depth).value
    {
      var tokens := Tokenize(rawText);
      ghost var start := Abs();
      var i := 0;
      while i < |tokens|
        invariant 0 <= i <= |tokens|
        invariant FirstPass(start, tokens, funcName, resultVar, files, depth)
               == FirstPass(Abs(), tokens[i..], funcName, resultVar, files, depth)
      {
        var token := tokens[i];
        assert tokens[i..][1..] == tokens[i + 1..];
        if MatchesVariable(token) {
          HandleVariable(token);
        } else if MatchesTag(token) {
          o := HandleTag(token, depth);
          if o.Fail? {
            return;
          }
        } else {
          HandleString(token);
        }
        i := i + 1;
      }
      o := SecondLoop(tokens);
    }

    /** The second `for` loop of `_parse_text()` (main.py:78-96): fragments are buffered again, every tag is flushed for and its statement re-emitted. */
    method SecondLoop(tokens: seq<string>) returns (o: Outcome)
      modifies this, codeBuilder
      ensures o == StatusOf(SecondPass(old(Abs()), tokens, resultVar))
      ensures o.Pass? ==> Abs() == SecondPass(old(Abs()), tokens, resultVar).value
    {
      ghost var start := Abs();
      var i := 0;
      while i < |tokens|
        invariant 0 <= i <= |tokens|
        invariant SecondPass(start, tokens, resultVar) == SecondPass(Abs(), tokens[i..], resultVar)
      {
        var token := tokens[i];
        assert tokens[i..][1..] == tokens[i + 1..];
        if MatchesVariable(token) {
          buffered := buffered + [VariableFragment(token)];
        } else if MatchesTag(token) {
          FlushBuffer();
          var tag := TagText(token);
          var words := Split(tag);
          if |words| == 0 {
            return Fail(MissingTagName(tag));
          }
          HandleStatement(tag, words[0]);
        } else {
          buffered := buffered + [Repr(token)];
        }
        i := i + 1;
      }
      o := Pass;
    }

    /** `_handle_string(token)`: buffer the token's `repr`; nothing is flushed. */
    method HandleString(token: string)
      modifies this
      ensures buffered == old(buffered) + [Repr(token)]
    {
      buffered := buffered + [Repr(token)];
    }

    /** `_handle_variable(token)`: buffer `str(<expression>)`; nothing is flushed. */
    method HandleVariable(token: string)
      modifies this
      ensures buffered == old(buffered) + [VariableFragment(token)]
    {
      buffered := buffered + [VariableFragment(token)];
    }

    /** `_handle_tag(token)` (main.py:105-112): flush first, then an include or a statement. */
    method HandleTag(token: string, depth: nat) returns (o: Outcome)
      modifies this, codeBuilder
      decreases depth, 3
      ensures o == StatusOf(TagStep(old(Abs()), token, funcName, resultVar, files, depth))
      ensures o.Pass? ==> Abs() == TagStep(old(Abs()), token, funcName, resultVar, files, depth).value
    {
      FlushBuffer();
      var tag := TagText(token);
      var words := Split(tag);
      if |words| == 0 {
        return Fail(MissingTagName(tag));
      }
      if words[0] == "include" {
        o := HandleInclude(tag, depth);
      } else {
        HandleStatement(tag, words[0]);
        o := Pass;
      }
    }

    /**
     * `_handle_include(tag)` (main.py:114-122): splice the child's builder in
     * as it is, then call the child's function and append its result.
     */
    method HandleInclude(tag: string, depth: nat) returns (o: Outcome)
      modifies codeBuilder
      decreases depth, 2
      ensures o == StatusOf(IncludeStep(old(Abs()), tag, funcName, resultVar, files, depth))
      ensures o.Pass? ==> Abs() == IncludeStep(old(Abs()), tag, funcName, resultVar, files, depth).value
    {
      var words := Split(tag);
      if |words| < 2 {
        return Fail(MissingIncludeName(tag));
      }
      var filename := Strip(words[1], QuoteChars);
      var r := ParseAnotherTemplateFile(filename, depth);
      if r.Err? {
        return Fail(r.error);
      }
      var includeTemplate := r.value;
      codeBuilder.Add(includeTemplate.codeBuilder);
      codeBuilder.AddLine(AppendLine(resultVar, includeTemplate.funcName));
      o := Pass;
    }

    /** `_handle_statement(tag, tag_name)` (main.py:124-133). */
    method HandleStatement(tag: string, tagName: string)
      modifies codeBuilder
      ensures Abs() == Statement(old(Abs()), tag, tagName)
    {
      if tagName in {"if", "elif", "else", "for"} {
        if tagName in {"elif", "else"} {
          codeBuilder.Backward();
        }
        codeBuilder.AddLine(tag + ":");
        codeBuilder.Forward();
      } else if Contains("break", tagName) {
        codeBuilder.AddLine(tag);
      } else if tagName in {"endif", "endfor"} {
        codeBuilder.Backward();
      }
    }

    /**
     * `_parse_another_template_file(filename)` (main.py:135-150): a new
     * Template over the file's text, at this builder's indent, named after
     * this template plus the path-hash suffix.
     */
    method ParseAnotherTemplateFile(filename: string, depth: nat) returns (r: Result<Template, CompileError>)
      decreases depth, 1
      ensures IncludedChild(filename, codeBuilder.indent, funcName, resultVar, files, depth).Err? ==>
                r == Err(IncludedChild(filename, codeBuilder.indent, funcName, resultVar, files, depth).error)
      ensures IncludedChild(filename, codeBuilder.indent, funcName, resultVar, files, depth).Ok? ==>
                && r.Ok? && fresh(r.value) && fresh(r.value.codeBuilder)
                && r.value.funcName == IncludedChild(filename, codeBuilder.indent, funcName, resultVar, files, depth).value.funcName
                && r.value.Abs() == IncludedChild(filename, codeBuilder.indent, funcName, resultVar, files, depth).value.built
    {
      if filename !in files {
        return Err(IncludeNotFound(filename));
      }
      if depth == 0 {
        return Err(RecursionLimit);
      }
      var file := files[filename];
      var childName := DerivedName(funcName, file.pathHash);
      var template := new Template(file.text, codeBuilder.indent, childName, DerivedName(resultVar, file.pathHash), files);
      var o := template.Build(depth - 1);
      if o.Fail? {
        return Err(o.error);
      }
      r := Ok(template);
    }

    /** `flush_buffer()` (main.py:152-159): always exactly one line, even for an empty buffer. */
    method FlushBuffer()
      modifies this, codeBuilder
      ensures codeBuilder.indent == old(codeBuilder.indent) && buffered == []
      ensures codeBuilder.lines == old(codeBuilder.lines) + [Text(Pad(old(codeBuilder.indent)) + FlushLine(resultVar, old(buffered)))]
    {
      var line := FlushLine(resultVar, buffered);
      codeBuilder.AddLine(line);
      buffered := [];
    }
  }
}
