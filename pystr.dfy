/**
 * The few Python string operations the template compiler relies on:
 * `str.strip(chars)`, `str.split()`, the substring test `a in b`,
 * `''.join`, `','.join`, `str(int)`, `str.replace` of one character,
 * and `repr` of a string.
 */
module PyStr {
  import opened Results

  /** `''.join(ss)`. */
  function Concat(ss: seq<string>): string
  {
    if |ss| == 0 then "" else ss[0] + Concat(ss[1..])
  }

  /** `sep.join(ss)` for a one-character separator. */
  function JoinWith(sep: char, ss: seq<string>): string
  {
    if |ss| == 0 then ""
    else if |ss| == 1 then ss[0]
    else ss[0] + [sep] + JoinWith(sep, ss[1..])
  }

  // ---------------------------------------------------------------- strip

  /** Length of the run of leading characters of `s` that belong to `cs`. */
  function LeadingCount(s: string, cs: set<char>): (n: nat)
    ensures n <= |s|
    ensures forall k :: 0 <= k < n ==> s[k] in cs
    ensures n == |s| || s[n] !in cs
  {
    if |s| > 0 && s[0] in cs then 1 + LeadingCount(s[1..], cs) else 0
  }

  /** Length of the run of trailing characters of `s` that belong to `cs`. */
  function TrailingCount(s: string, cs: set<char>): (n: nat)
    ensures n <= |s|
    ensures forall k :: |s| - n <= k < |s| ==> s[k] in cs
    ensures n == |s| || s[|s| - n - 1] !in cs
  {
    if |s| > 0 && s[|s| - 1] in cs then 1 + TrailingCount(s[..|s| - 1], cs) else 0
  }

  /**
   * `s.strip(chars)`: what is left of `s` once every leading and every
   * trailing character in `cs` is removed.  The result is the part of `s`
   * after the leading run, it is followed in `s` only by characters of `cs`,
   * and it neither starts nor ends with one of them.
   */
  function Strip(s: string, cs: set<char>): (r: string)
    ensures LeadingCount(s, cs) + |r| <= |s|
    ensures r == s[LeadingCount(s, cs)..LeadingCount(s, cs) + |r|]
    ensures forall k :: LeadingCount(s, cs) + |r| <= k < |s| ==> s[k] in cs
    ensures r == [] || (r[0] !in cs && r[|r| - 1] !in cs)
  {
    var i := LeadingCount(s, cs);
    if i == |s| then "" else s[i..|s| - TrailingCount(s, cs)]
  }

  // ---------------------------------------------------------------- split

  /** The characters `str.split()` without arguments splits on (CPython's Py_UNICODE_ISSPACE). */
  predicate IsSpace(c: char)
  {
    var n := c as int;
    || n == 0x20 || 0x09 <= n <= 0x0d || 0x1c <= n <= 0x1f || n == 0x85 || n == 0xa0
    || n == 0x1680 || 0x2000 <= n <= 0x200a || n == 0x2028 || n == 0x2029
    || n == 0x202f || n == 0x205f || n == 0x3000
  }

  /** A non-empty run of non-whitespace characters. */
  predicate IsWord(w: string)
  {
    |w| > 0 && forall k :: 0 <= k < |w| ==> !IsSpace(w[k])
  }

  /** Length of the leading whitespace of `s`. */
  function SpaceRun(s: string): (n: nat)
    ensures n <= |s|
    ensures forall k :: 0 <= k < n ==> IsSpace(s[k])
    ensures n == |s| || !IsSpace(s[n])
  {
    if |s| > 0 && IsSpace(s[0]) then 1 + SpaceRun(s[1..]) else 0
  }

  /** Length of the leading non-whitespace run of `s`. */
  function WordRun(s: string): (n: nat)
    ensures n <= |s|
    ensures forall k :: 0 <= k < n ==> !IsSpace(s[k])
    ensures n == |s| || IsSpace(s[n])
  {
    if |s| > 0 && !IsSpace(s[0]) then 1 + WordRun(s[1..]) else 0
  }

  /** `s.split()`: the maximal whitespace-free runs of `s`, in order. */
  function Split(s: string): (ws: seq<string>)
    ensures forall i :: 0 <= i < |ws| ==> IsWord(ws[i])
    decreases |s|
  {
    if |s| == 0 then []
    else if IsSpace(s[0]) then Split(s[1..])
    else
      var n := WordRun(s);
      [s[..n]] + Split(s[n..])
  }

  /** `s` with every whitespace character removed. */
  function NonSpace(s: string): string
  {
    if |s| == 0 then "" else (if IsSpace(s[0]) then "" else [s[0]]) + NonSpace(s[1..])
  }

  /** `s.split()` is empty exactly when `s` is all whitespace (then `split()[0]` raises IndexError). */
  lemma {:induction false} SplitEmpty(s: string)
    ensures Split(s) == [] <==> forall k :: 0 <= k < |s| ==> IsSpace(s[k])
    decreases |s|
  {
    if |s| > 0 && IsSpace(s[0]) {
      SplitEmpty(s[1..]);
      if Split(s[1..]) == [] {
        forall k | 0 <= k < |s| ensures IsSpace(s[k]) {
          if k > 0 { assert s[k] == s[1..][k - 1]; }
        }
      }
      if forall k :: 0 <= k < |s| ==> IsSpace(s[k]) {
        forall k | 0 <= k < |s[1..]| ensures IsSpace(s[1..][k]) {
          assert s[1..][k] == s[k + 1];
        }
      }
    }
  }

  /** Joining the words of `s.split()` gives back `s` without its whitespace: nothing is lost or reordered. */
  lemma {:induction false} SplitConcat(s: string)
    ensures Concat(Split(s)) == NonSpace(s)
    decreases |s|
  {
    if |s| == 0 {
    } else if IsSpace(s[0]) {
      SplitConcat(s[1..]);
    } else {
      var n := WordRun(s);
      SplitConcat(s[n..]);
      assert ([s[..n]] + Split(s[n..]))[1..] == Split(s[n..]);
      NonSpaceOfWord(s, n);
    }
  }

  lemma {:induction false} NonSpaceOfWord(s: string, n: nat)
    requires n <= |s|
    requires forall k :: 0 <= k < n ==> !IsSpace(s[k])
    ensures NonSpace(s) == s[..n] + NonSpace(s[n..])
    decreases n
  {
    if n > 0 {
      var t := s[1..];
      forall k | 0 <= k < n - 1 ensures !IsSpace(t[k]) {
        assert t[k] == s[k + 1];
      }
      NonSpaceOfWord(t, n - 1);
      assert t[n - 1..] == s[n..];
      assert s[..n] == [s[0]] + t[..n - 1];
      calc {
        NonSpace(s);
        [s[0]] + NonSpace(t);
        [s[0]] + (t[..n - 1] + NonSpace(s[n..]));
        s[..n] + NonSpace(s[n..]);
      }
    }
  }

  /**
   * `s.split()[0]`, when there is one, is the run of non-whitespace
   * characters that begins at the first non-whitespace character of `s`.
   */
  lemma {:induction false} SplitFirst(s: string)
    requires Split(s) != []
    ensures SpaceRun(s) < |s|
    ensures Split(s)[0] == s[SpaceRun(s)..SpaceRun(s) + WordRun(s[SpaceRun(s)..])]
    decreases |s|
  {
    if IsSpace(s[0]) {
      SplitFirst(s[1..]);
      assert s[1..][SpaceRun(s[1..])..] == s[SpaceRun(s)..];
    }
  }

  /** The offset just past the first word of `s`: its leading whitespace, then its first non-whitespace run. */
  function FirstWordEnd(s: string): (e: nat)
    ensures SpaceRun(s) <= e <= |s|
  {
    SpaceRun(s) + WordRun(s[SpaceRun(s)..])
  }

  /**
   * `s.split()` is its first word followed by the split of what comes after
   * that word, so each word in turn is the next maximal non-whitespace run.
   */
  lemma {:induction false} SplitUnfold(s: string)
    requires Split(s) != []
    ensures Split(s) == [s[SpaceRun(s)..FirstWordEnd(s)]] + Split(s[FirstWordEnd(s)..])
    decreases |s|
  {
    if IsSpace(s[0]) {
      SplitUnfold(s[1..]);
      var i, e := SpaceRun(s), FirstWordEnd(s);
      assert s[1..][SpaceRun(s[1..])..] == s[i..];
      assert FirstWordEnd(s[1..]) == e - 1;
      assert s[1..][i - 1..e - 1] == s[i..e];
      assert s[1..][e - 1..] == s[e..];
    }
  }

  /**
   * `s.split()[1]`, when there is one, is the first word of what follows
   * `s.split()[0]` in `s`.
   */
  lemma SplitSecond(s: string)
    requires |Split(s)| >= 2
    ensures Split(s[FirstWordEnd(s)..]) != []
    ensures Split(s)[1] == Split(s[FirstWordEnd(s)..])[0]
  {
    SplitUnfold(s);
    assert Split(s)[1..] == Split(s[FirstWordEnd(s)..]);
  }

  // ---------------------------------------------------------------- substring test

  /** `needle in hay` for two strings: `needle` occurs in `hay` as a contiguous run. */
  predicate Contains(hay: string, needle: string)
  {
    exists i | 0 <= i <= |hay| :: needle <= hay[i..]
  }

  // ---------------------------------------------------------------- str(int), replace

  predicate IsDigit(c: char)
  {
    '0' <= c <= '9'
  }

  function DigitChar(d: nat): (c: char)
    requires d < 10
    ensures IsDigit(c)
  {
    ('0' as int + d) as char
  }

  function DigitValue(c: char): (d: nat)
    requires IsDigit(c)
    ensures d < 10
  {
    c as int - '0' as int
  }

  /** `str(n)` for a non-negative integer: its decimal digits, most significant first. */
  function NatToStr(n: nat): (r: string)
    ensures |r| > 0 && forall k :: 0 <= k < |r| ==> IsDigit(r[k])
  {
    if n < 10 then [DigitChar(n)] else NatToStr(n / 10) + [DigitChar(n % 10)]
  }

  /** `str(n)`: a minus sign for negative numbers, then the digits of the magnitude. */
  function IntToStr(n: int): string
  {
    if n < 0 then "-" + NatToStr(-n) else NatToStr(n)
  }

  /** `int(s)` for a string of decimal digits. */
  function ParseNat(s: string): nat
    requires forall k :: 0 <= k < |s| ==> IsDigit(s[k])
  {
    if |s| == 0 then 0 else ParseNat(s[..|s| - 1]) * 10 + DigitValue(s[|s| - 1])
  }

  /** Reading back the decimal digits of `n` gives `n`. */
  lemma {:induction false} ParseNatToStr(n: nat)
    ensures ParseNat(NatToStr(n)) == n
  {
    if n >= 10 {
      var r := NatToStr(n);
      assert r[..|r| - 1] == NatToStr(n / 10);
      ParseNatToStr(n / 10);
    }
  }

  /** `str(n)` starts with a minus sign exactly when `n` is negative. */
  lemma IntToStrSign(n: int)
    ensures |IntToStr(n)| > 0 && (IntToStr(n)[0] == '-' <==> n < 0)
  {
    if n >= 0 {
      assert IsDigit(NatToStr(n)[0]);
    }
  }

  /** `str` is one-to-one on integers. */
  lemma IntToStrInjective(a: int, b: int)
    ensures IntToStr(a) == IntToStr(b) ==> a == b
  {
    if IntToStr(a) == IntToStr(b) {
      var r := IntToStr(a);
      IntToStrSign(a);
      IntToStrSign(b);
      if a < 0 {
        assert r == "-" + NatToStr(-a) && r == "-" + NatToStr(-b);
        assert NatToStr(-a) == r[1..] == NatToStr(-b);
        ParseNatToStr(-a);
        ParseNatToStr(-b);
      } else {
        assert NatToStr(a) == r == NatToStr(b);
        ParseNatToStr(a);
        ParseNatToStr(b);
      }
    }
  }

  /** `s.replace(a, b)` for single characters. */
  function ReplaceChar(s: string, a: char, b: char): (r: string)
    ensures |r| == |s|
    ensures forall k :: 0 <= k < |s| ==> r[k] == if s[k] == a then b else s[k]
  {
    if |s| == 0 then "" else [if s[0] == a then b else s[0]] + ReplaceChar(s[1..], a, b)
  }

  // ---------------------------------------------------------------- repr

  function HexDigit(d: nat): (c: char)
    requires d < 16
    ensures IsHexDigit(c)
  {
    if d < 10 then ('0' as int + d) as char else ('a' as int + d - 10) as char
  }

  predicate IsHexDigit(c: char)
  {
    '0' <= c <= '9' || 'a' <= c <= 'f' || 'A' <= c <= 'F'
  }

  function HexValue(c: char): (d: nat)
    requires IsHexDigit(c)
    ensures d < 16
  {
    if c <= '9' then c as int - '0' as int
    else if c <= 'F' then c as int - 'A' as int + 10
    else c as int - 'a' as int + 10
  }

  /** The quote `repr` puts around a string: `"` when it holds `'` but no `"`, otherwise `'`. */
  function ReprQuote(s: string): char
  {
    if '\'' in s && '"' !in s then '"' else '\''
  }

  /**
   * The characters below U+0100 that `repr` writes as `\xhh`: the C0
   * controls other than tab, newline and carriage return, DEL and the C1
   * controls, the no-break space and the soft hyphen.
   */
  predicate NeedsHexEscape(c: char)
  {
    c as int < 0x20 || 0x7f <= c as int <= 0xa0 || c as int == 0xad
  }

  /** How `repr` writes one character inside a literal quoted with `q`. */
  function EscapeChar(c: char, q: char): string
  {
    if c == q || c == '\\' then ['\\', c]
    else if c == '\t' then "\\t"
    else if c == '\n' then "\\n"
    else if c == '\r' then "\\r"
    else if NeedsHexEscape(c) then ['\\', 'x', HexDigit(c as int / 16), HexDigit(c as int % 16)]
    else [c]
  }

  function Escape(s: string, q: char): string
  {
    if |s| == 0 then "" else EscapeChar(s[0], q) + Escape(s[1..], q)
  }

  /** `repr(s)` for a string: a quoted, escaped Python literal. */
  function Repr(s: string): string
  {
    var q := ReprQuote(s);
    [q] + Escape(s, q) + [q]
  }

  function Prepend(c: char, o: Option<string>): Option<string>
  {
    if o.None? then None else Some([c] + o.value)
  }

  /**
   * The value of the body of a Python string literal quoted with `q`, for
   * the escapes `repr` writes; None when the body is not well-formed (a bare
   * quote or newline, which would end the literal, or an unknown escape).
   */
  function Unescape(b: string, q: char): Option<string>
    decreases |b|
  {
    if |b| == 0 then Some("")
    else if b[0] == q || b[0] == '\n' then None
    else if b[0] != '\\' then Prepend(b[0], Unescape(b[1..], q))
    else if |b| < 2 then None
    else if b[1] == '\\' || b[1] == '\'' || b[1] == '"' then Prepend(b[1], Unescape(b[2..], q))
    else if b[1] == 't' then Prepend('\t', Unescape(b[2..], q))
    else if b[1] == 'n' then Prepend('\n', Unescape(b[2..], q))
    else if b[1] == 'r' then Prepend('\r', Unescape(b[2..], q))
    else if b[1] == 'x' && |b| >= 4 && IsHexDigit(b[2]) && IsHexDigit(b[3]) then
      Prepend((HexValue(b[2]) * 16 + HexValue(b[3])) as char, Unescape(b[4..], q))
    else None
  }

  /** The value of a quoted Python string literal, when it is one `Unescape` reads. */
  function Unrepr(r: string): Option<string>
  {
    if |r| >= 2 && (r[0] == '\'' || r[0] == '"') && r[|r| - 1] == r[0] then Unescape(r[1..|r| - 1], r[0])
    else None
  }

  lemma UnescapeEscapeChar(c: char, q: char, rest: string)
    requires q == '\'' || q == '"'
    ensures Unescape(EscapeChar(c, q) + rest, q) == Prepend(c, Unescape(rest, q))
  {
    var e := EscapeChar(c, q);
    if c == q || c == '\\' || c == '\t' || c == '\n' || c == '\r' {
      assert (e + rest)[2..] == rest;
    } else if NeedsHexEscape(c) {
      var hi, lo := c as int / 16, c as int % 16;
      assert HexValue(HexDigit(hi)) == hi;
      assert HexValue(HexDigit(lo)) == lo;
      assert (e + rest)[4..] == rest;
    } else {
      assert (e + rest)[1..] == rest;
    }
  }

  /** The literal `repr` writes reads back as the original string, and it is well-formed. */
  lemma {:induction false} ReprRoundTrip(s: string)
    ensures Unrepr(Repr(s)) == Some(s)
  {
    var q := ReprQuote(s);
    var r := Repr(s);
    assert r[1..|r| - 1] == Escape(s, q);
    EscapeRoundTrip(s, q);
  }

  lemma {:induction false} EscapeRoundTrip(s: string, q: char)
    requires q == '\'' || q == '"'
    ensures Unescape(Escape(s, q), q) == Some(s)
  {
    if |s| > 0 {
      var rest := Escape(s[1..], q);
      calc {
        Unescape(Escape(s, q), q);
        Unescape(EscapeChar(s[0], q) + rest, q);
        { UnescapeEscapeChar(s[0], q, rest); }
        Prepend(s[0], Unescape(rest, q));
        { EscapeRoundTrip(s[1..], q); }
        Prepend(s[0], Some(s[1..]));
        { assert [s[0]] + s[1..] == s; }
        Some(s);
      }
    }
  }
}
