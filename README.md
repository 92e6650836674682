# yate template compiler, modelled in Dafny

yate compiles a text template into the source of one Python function. The template holds literal text, `{{ expr }}` interpolations and `{% tag %}` directives. The function appends every piece of output to a result list and returns the list joined. This project models that compiler, all of which lives in `main.py`:

- **The code builder** (`CodeBuilder`) is an indentation counter plus a list of generated lines. A line may also be a whole nested builder, spliced in by an include.
- **The tokenizer** is `re_tokens.split(raw_text)`, together with the two anchored matches `re_variable.match` and `re_tag.match` that decide how each token is handled.
- **The code generator** covers `Template.__init__`, `_parse_text`, the `_handle_*` methods, `flush_buffer` and `_parse_another_template_file`. It is a state machine over the builder's indent, the builder's lines and `buffered`, the list of expression fragments not yet emitted.

## Files

| file | module | contents |
|---|---|---|
| `results.dfy` | `Results` | `Option` and `Result` |
| `pystr.dfy` | `PyStr` | the Python string operations the compiler relies on:<br>`str.strip(chars)`, `str.split()` with Python's whitespace set, the substring test `a in b`, `''.join` and `','.join`, `str(int)`, one-character `str.replace`, and `repr` of a string with its inverse |
| `emitter.dfy` | `Emitter` | the `Line` datatype, `__str__` as `Render`, and `class CodeBuilder` with its in-place methods |
| `tokenizer.dfy` | `Tokenizer` | the delimiter scan, `re.split` as `Tokenize`, the two classifiers, and their specifications |
| `compiler.dfy` | `Compiler` | the compiler's steps as functions on a `State`, and `class Template`, whose methods are proved to follow those functions |
| `compiler_props.dfy` | `CompilerProperties` | what compilation guarantees:<br>indentation, buffering, line counts, the frame of the generated function, errors, includes, derived names |
| `single_pass.dfy` | `SinglePass` | the corrected compiler `CompileOnce`, the defects of the code as written shown on concrete inputs, and the properties of the correction |

The model keeps the source's own form.

- `CodeBuilder` and `Template` are classes whose methods update their fields.
- `_parse_text`'s two `for` loops are `while` loops: the first in `Template.ParseText`, the second in `Template.SecondLoop`, which `ParseText` calls.
- The pure computations are functions: the tokenizer, the strip/format text, and name derivation.
- Each method's postcondition ties its new state to a function (`Build` to `Compile`, `ParseText` to `Parse`, `HandleTag` to `TagStep`, and so on). The lemmas are stated about those functions.

### Choices made while modelling

**Includes and the file system.** The compiler sees the template directory as a map `Files` from a file name, as written in the tag after quotes are stripped, to `IncludeFile(pathHash, text)`.

- `pathHash` stands for `hash(os.path.realpath(...))`.
- A missing name is the `open` failure `IncludeNotFound`.

**Recursion depth.** A `depth` budget stands for the interpreter's recursion limit. Running out of it is `RecursionLimit`.

**Errors.** Every failure of the source is an exception. In the model each one is an `Err` value:

- `MissingTagName` is the `IndexError` from `tag.split()[0]` on a blank tag body.
- `MissingIncludeName` is the `IndexError` from `tag.split()[1]`.
- `IncludeNotFound` is a missing include file.
- `RecursionLimit` is includes nested too deeply.

**Behaviour of the code that is easy to miss.** The model keeps each of these as the code has it:

- `_parse_text` runs its two loops over the same tokens one after the other, and both emit (see Findings).
- `tag_name in ('break')` tests for a substring of the string `"break"`, so a tag whose name is any piece of `"break"` is emitted as a bare line (see Findings).
- Include names come from `hash` of the resolved path, which Python salts per process. Here it is a parameter.

### Specification functions

Each method is proved to follow a function, and the lemmas are stated about those functions. The functions have no rows of their own in the table below. Each is covered by the row of the method whose postcondition names it and by the lemmas about it.

| function | source | covered by |
|---|---|---|
| `Tokenizer.Tokenize` (with `Scan`, `MatchAt`) | main.py:46-49, 63 | `TokenizeSpec`, `TokenizeLeftmost` |
| `Tokenizer.MatchesVariable`, `Tokenizer.MatchesTag` | main.py:44-45 | `DelimiterClass`, `LiteralClass`, `ClassifyTokens` |
| `PyStr.Split` | main.py:85, 108, 115 | `SplitEmpty`, `SplitConcat`, `SplitFirst`, `SplitUnfold`, `SplitSecond` |
| `PyStr.Repr` | main.py:98-99 | `ReprRoundTrip`, `EscapeRoundTrip` |
| `Compiler.Statement` | main.py:124-133 | `Template.HandleStatement`, `StatementShape`, `BreakLikeNames` |
| `Compiler.FirstStep`, `TagStep`, `IncludeStep`, `IncludedChild` | main.py:70-76, 105-122, 135-150 | `Template.HandleTag`, `HandleInclude`, `ParseAnotherTemplateFile`, `FirstStepShape`, `TagStepShape`, `IncludeStepShape`, `IncludeSplice` |
| `Compiler.FirstPass`, `SecondStep`, `SecondPass`, `Parse` | main.py:62-96 | `Template.ParseText`, `Template.SecondLoop`, the pass lemmas, `ErrorsComeFromFirstPass` |
| `Compiler.Compile` | main.py:33-60 | `Template.Build`, `CompileShape`, `CompileNoTags` |

## Model

| member | source | states |
|---|---|---|
| Emitter.Pad | main.py:20-21 | `' ' * indent` is exactly `max(0, indent)` spaces: a negative indent gives no padding |
| Emitter.CodeBuilder.constructor | main.py:7-9 | a new builder has the given indent and no lines |
| Emitter.CodeBuilder.Forward | main.py:11-12 | `forward` raises the indent by exactly `INDENT_STEP` (4) and leaves the lines unchanged |
| Emitter.CodeBuilder.Backward | main.py:14-15 | `backward` lowers the indent by exactly 4, possibly below zero, and leaves the lines unchanged |
| Emitter.CodeBuilder.Add | main.py:17-18 | `add` appends the other builder as one entry holding its lines as they are, not re-indented; the indent is unchanged |
| Emitter.CodeBuilder.AddLine | main.py:20-21 | `add_line` appends exactly one line, the padding for the current indent followed by `code`, and changes nothing else |
| Emitter.CodeBuilder.ToString | main.py:23-24 | `str(builder)` is the newline-join of its physical lines, with each nested builder's lines in its place |
| Emitter.RenderIsJoinOfFlatten | main.py:23-24 | rendering a builder recursively equals joining its flattened lines with `'\n'` |
| Emitter.RenderAppend | main.py:17-24 | appending an entry to a non-empty builder extends its text by `'\n'` and the entry's rendering, keeping the earlier text |
| Emitter.JoinLinesAppend | main.py:23-24 | `'\n'.join` of two non-empty lists is the two joins separated by one newline |
| PyStr.Strip | main.py:102 | `strip(chars)` returns the slice that starts after the leading run of `chars` and ends before the trailing run; the result neither starts nor ends with one of `chars` |
| PyStr.SplitEmpty | main.py:108 | `tag.split()` is empty exactly when every character of the tag is Python whitespace, which is when `split()[0]` raises |
| PyStr.SplitConcat | main.py:108 | the words of `split()` concatenate to the text with all whitespace removed |
| PyStr.SplitFirst | main.py:108 | `split()[0]` is the first run of non-whitespace after the leading whitespace |
| PyStr.SplitUnfold | main.py:108 | `split()` is its first word followed by the split of what comes after that word, so each word in turn is the next maximal run of non-whitespace |
| PyStr.SplitSecond | main.py:115 | `split()[1]` is the first word of the text that follows `split()[0]` |
| PyStr.IntToStrInjective | main.py:139 | `str` on integers is one-to-one |
| PyStr.ParseNatToStr | main.py:139 | the decimal digits `str` gives for a natural number read back as that number |
| PyStr.ReprRoundTrip | main.py:98-99 | evaluating the literal `repr(token)` gives back `token`, for every string |
| PyStr.EscapeRoundTrip | main.py:98-99 | the escaped body of a `repr` literal decodes back to the original text under either quote |
| Tokenizer.FindCloserSpec | main.py:46-49 | the lazy scan stops exactly at the first occurrence of the closer, with no newline before it |
| Tokenizer.MatchAtSpec | main.py:46-49 | `re_tokens` matches at offset p and ends at e exactly when `s[p..e]` is a shortest `{{…}}` or `{%…%}` without a newline |
| Tokenizer.TokenizeSpec | main.py:63 | the tokens of `re_tokens.split` concatenate back to the text; their count is odd; odd-index tokens are delimiters; no even-index token contains one |
| Tokenizer.TokenizeLeftmost | main.py:63 | the tokens are the leftmost split of the text:<br>no match starts inside a literal;<br>each delimiter is the match at the first offset where one starts;<br>the last literal is the match-free rest;<br>no other sequence of tokens is such a split |
| Tokenizer.SplitByUnique | main.py:63 | for any matcher, a text has only one split of that kind |
| Tokenizer.TokenizeNoDelimiter | main.py:63 | text that contains no delimiter splits into the one token holding the whole text |
| Tokenizer.LiteralClass | main.py:70-76 | a token without a delimiter matches neither `re_variable` nor `re_tag`, so it takes the literal path |
| Tokenizer.DelimiterClass | main.py:44-45 | a delimiter matches `re_variable` exactly when it opens with `{{`, and `re_tag` exactly when it opens with `{% ` and closes with ` %}` with two distinct blanks (six characters or more, so `{% %}` is not a tag) |
| Tokenizer.VariableDelimiter | main.py:44 | `re_variable` matches a delimiter exactly when it opens with `{{` |
| Tokenizer.TagDelimiterHasBlanks | main.py:45 | a delimiter that `re_tag` matches opens with `{% ` and closes with ` %}` with two distinct blanks, and `re_tag`'s lazy match ends exactly at the delimiter's end |
| Tokenizer.BlankDelimiterIsTag | main.py:45 | a `{%…%}` delimiter with those blanks is matched by `re_tag` |
| Tokenizer.ClassifyTokens | main.py:64-82 | every split token is classified this way; `{%if x%}` falls through to the literal handler |
| Compiler.Template.constructor | main.py:36-43 | a template starts with a fresh builder at the given indent and nothing buffered |
| Compiler.Template.Build | main.py:51-60 | `__init__`'s code generation succeeds or fails exactly as `Compile`, and leaves the builder in `Compile`'s final state |
| Compiler.Template.ParseText | main.py:62-96 | both token loops together succeed or fail as `Parse`, the first pass followed by the second, and end in its state |
| Compiler.Template.SecondLoop | main.py:78-96 | the second token loop fails exactly when a tag has no name, and otherwise ends in the state of `SecondPass`: fragments buffered again, each tag flushed for and its statement re-emitted, includes only flushed for |
| Compiler.Template.HandleString | main.py:98-99 | a literal token buffers `repr(token)`; no line is emitted |
| Compiler.Template.HandleVariable | main.py:101-103 | a variable token buffers `str(<token stripped of braces and blanks>)`; no line is emitted |
| Compiler.Template.HandleTag | main.py:105-112 | a tag flushes, then fails on a blank body, dispatches `include`, or handles a statement, as `TagStep` |
| Compiler.Template.HandleInclude | main.py:114-122 | an include fails without a file name, fails as the child does, or adds the child's builder and one append line, as `IncludeStep` |
| Compiler.Template.HandleStatement | main.py:124-133 | the builder changes exactly as `Statement` says for that tag name |
| Compiler.Template.ParseAnotherTemplateFile | main.py:135-150 | the child is a fresh template at the current indent, under the derived names, compiled as `IncludedChild`; errors are passed on |
| Compiler.Template.FlushBuffer | main.py:152-159 | `flush_buffer` always appends exactly one line `<result_var>.extend([b1,…,bn])` at the current indent, even for an empty buffer, and empties the buffer |
| CompilerProperties.StatementShape | main.py:124-133 | a statement moves the indent by +4 for `if`/`for`, −4 for `endif`/`endfor`, 0 otherwise; it adds a line exactly for openers and pieces of "break": `<tag>:` at the current indent for `if`/`for`, `<tag>:` one level out for `elif`/`else` (close, emit, reopen), the bare tag for a piece of "break"; the buffer is unchanged |
| CompilerProperties.BreakLikeNames | main.py:130-131 | `tag_name in ('break')` accepts exactly the sixteen substrings of "break", the empty one included |
| CompilerProperties.FirstStepShape | main.py:70-76 | a first-pass step:<br>moves the indent by the tag's delta and only appends lines;<br>for a tag, empties the buffer, and its first added line is the flush of the buffer it found;<br>for any other token, appends its fragment and emits nothing;<br>counts the lines added exactly |
| CompilerProperties.TagStepShape | main.py:105-112 | a tag flushes first: the first line it adds is the flush of the buffer it found; it leaves the buffer empty, moves the indent by the tag's delta, only appends, and adds exactly the lines counted for it (an include adds none of its own for its keyword) |
| CompilerProperties.IncludeStepShape | main.py:114-122 | an include that succeeds adds exactly two entries after the existing ones (the child's block and the append line) and keeps the indent and the buffer |
| CompilerProperties.FirstPassShape | main.py:70-76 | over a whole pass:<br>the indent moves by the sum of the deltas;<br>earlier lines are kept as a prefix;<br>the buffer ends as the fragments after the last tag;<br>the number of added lines is exact |
| CompilerProperties.SecondStepShape | main.py:79-96 | a second-pass step does the same, including the flush as a tag's first line, except that an include only flushes |
| CompilerProperties.PassLinesCount | main.py:70-96 | the lines a pass adds are one flush per named tag, plus one per statement that emits a line, plus, in the first pass only, a child block and an append line per include |
| CompilerProperties.SecondPassShape | main.py:78-96 | the whole second loop has the same indentation, prefix, buffer and line-count properties |
| CompilerProperties.FirstPassNamesTags | main.py:108 | a first pass that succeeds has found a name in every tag |
| CompilerProperties.SecondPassSucceeds | main.py:85 | the second loop fails exactly when some tag has a blank body |
| CompilerProperties.ErrorsComeFromFirstPass | main.py:62-96 | once the first loop succeeds, the second cannot raise |
| CompilerProperties.FirstPassNoTags | main.py:70-76 | over tokens none of which is a tag, the first loop only buffers their fragments, in order |
| CompilerProperties.SecondPassNoTags | main.py:78-96 | the same holds for the second loop |
| CompilerProperties.ParseShape | main.py:62-96 | the two loops together keep every line emitted before, move the indent by twice the net nesting, leave the fragments pending after the last tag of each pass buffered, and add exactly 2·(named tags + line-emitting statements) + 2·includes entries |
| CompilerProperties.CompileShape | main.py:51-60 | a compiled template:<br>starts with `def <func_name>():` at the base indent, then `<result_var> = []` one step in;<br>ends with one flush and `return "".join(<result_var>)`;<br>has `4 + lines of pass 1 + lines of pass 2` entries, which is exactly 4 + 2·(named tags + line-emitting statements) + 2·includes, and nothing buffered;<br>ends at base + 2·(net `if`/`for` nesting), i.e. base + 8·(#if/for − #endif/endfor) |
| CompilerProperties.CompileNoTags | main.py:51-96 | a template without tags compiles to four lines, and its one `extend` holds every fragment twice |
| CompilerProperties.IncludeSplice | main.py:114-122 | a successful include:<br>appends the child's builder, whose `def` line sits at the parent's current indent under the derived name, and then one line `<result_var>.append(<child name>())`;<br>leaves the indent and the buffer unchanged |
| CompilerProperties.NameSuffixShape | main.py:139 | the name suffix is digits, with `_` in front exactly when the hash is negative |
| CompilerProperties.DerivedNameIsIdentifier | main.py:140-141 | deriving keeps a valid identifier valid |
| CompilerProperties.DerivedNameInjective | main.py:139-141 | different path hashes give different derived names under the same parent |
| CompilerProperties.IntToStrChars | main.py:139 | `str(hash)` is non-empty and made of digits and `-` |
| SinglePass.DoubledText | main.py:62-96 | as written, text without delimiters compiles to one `extend` holding its `repr` twice, and that list outputs the text twice |
| SinglePass.AbcRendersTwice | main.py:78-96 | the template `abc` generates `__result.extend(['abc','abc'])`, which outputs `abcabc` |
| SinglePass.BareStatementForPieceOfBreak | main.py:130-131 | as written, `{% e %}` emits the bare line `e`; the corrected handler emits nothing |
| SinglePass.PlainTextTokens | main.py:63 | text without delimiters is one literal token, whose fragment is its `repr` |
| SinglePass.FixedStatementShape | main.py:124-133 | the corrected statement moves the indent as before and emits a bare line only for `break` |
| SinglePass.OnceStepShape | main.py:70-76 | a corrected step moves the indent, appends lines and buffers as a first-pass step does |
| SinglePass.OncePassShape | main.py:70-76 | the corrected pass moves the indent by the net nesting, once |
| SinglePass.OncePassNoTags | main.py:70-76 | the corrected pass over tag-free tokens buffers each fragment once |
| SinglePass.SingleText | main.py:51-96 | corrected, text without delimiters compiles to one `extend` of its `repr`, which outputs the text once |
| SinglePass.CompileOnceShape | main.py:51-60 | corrected, a template whose `if`/`for` tags are all closed ends at the indent it started at; it has the same frame as before |
| SinglePass.StatementAgrees | main.py:124-133 | both statement handlers agree on every name except the pieces of "break" other than `break` |
| SinglePass.PassesAgree | main.py:70-96 | over tags that are named, not includes, and not break-pieces, each loop as written equals the corrected pass, and that pass cannot fail |
| SinglePass.ParseRunsPassTwice | main.py:62-96 | over such tags, `_parse_text` as written is the corrected pass run twice, the second time from where the first ended |

## Left out

- `Template.render` (main.py:161-168) is left out. It runs the generated source with `exec`, and merges contexts only to pass them to that call.
- `default_context`, `template_dir` and `encoding` are stored by `__init__` but are used only for rendering and for file access. `default_context` and `encoding` are not modelled. `template_dir` is folded into the `Files` map.
- The child template is built without `encoding`, so it reverts to UTF-8. That is not modelled.
- `os.path.realpath`, `os.path.join` and `open`/`read` are file I/O. `Files` stands for them.
- `hash(template_path)` is randomised per process. It is an integer parameter (`pathHash`), and only `str(...).replace('-', '_')` on it is modelled.
- `PyStr.Repr`: `repr` is modelled exactly for characters below U+0100. Characters at U+0100 and above are treated as printable and copied unescaped, so CPython's `\u`/`\U` escapes for non-printable ones are not modelled.
- `PyStr.Split`: the whitespace set is Python's for `str.split()`. It is stated over characters, not over a Unicode database.
- `Compiler.Template.HandleInclude` and `Emitter.CodeBuilder.Add`: `add` (main.py:17-18) stores a reference to the child builder, and the model stores a copy of its lines. Later changes to the child would show through in Python, but the child is finished before it is added and never changed again.
- `Compiler.Template.ParseAnotherTemplateFile`: Python's recursion limit is a `depth` budget. Includes nested deeper than the budget fail with `RecursionLimit`, and the exact depth at which CPython gives up is not modelled.
- The regular-expression engine is left out. Only the three concrete patterns are written out, as scans.
- CompilerProperties.CompileShape: it counts the entries exactly, but it does not count the flush lines among them by their text, because a statement line can read like an extend line. The flush lines are identified by position instead: each tag's first line in `FirstStepShape` and `SecondStepShape`, and the line before the return line.
- `CodeBuilder.__repr__` (main.py:26-27) is `__str__` again, so it has no separate member.

## Findings

| source | as written | input that shows it | evidently intended | confidence | as-written member | corrected member |
|---|---|---|---|---|---|---|
| main.py:78-96 | after the handler loop, a second loop over the same tokens repeats every buffer append, flush and statement | the template `abc` compiles to `__result.extend(['abc','abc'])` and outputs `abcabc` | one pass over the tokens, so each fragment and each statement is emitted once | high; not executed | SinglePass.AbcRendersTwice | SinglePass.SingleText |
| main.py:130-131 | `tag_name in ('break')` is a substring test, because `('break')` is a string and not a tuple | `{% e %}` emits the bare line `e`, an expression statement that raises NameError when the generated function runs unless the render context (or the builtins) binds `e` | `tag_name in ('break',)`, emitting a bare line for `break` only | medium; not executed | SinglePass.BareStatementForPieceOfBreak | SinglePass.FixedStatementShape |
