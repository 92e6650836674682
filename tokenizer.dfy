/**
 * The tokenizer: `re_tokens.split(raw_text)` (main.py:46-49, 63) and the
 * two anchored matches `re_variable.match` and `re_tag.match` that classify
 * each token (main.py:44-45, 64-82).
 *
 * `re_tokens` is compiled with re.X, so the blanks inside it are ignored and
 * it is `(\{\{.*?\}\}|\{%.*?%\})`: a lazy match that never crosses a newline.
 * `re_tag` is not verbose, so its pattern `\{% .*? %\}` does need the blank
 * after `{%` and before `%}`.  The two scans are written out directly.
 */
module Tokenizer {
  import opened Results
  import opened PyStr

  /**
   * Lazy `.*?` followed by `closer`, from offset `j` of `s`: the offset just
   * past the first occurrence of `closer` at or after `j`, provided no
   * newline comes before it (`.` does not match a newline).
   */
  function FindCloser(s: string, j: nat, closer: string): (r: Option<nat>)
    ensures r.Some? ==> j + |closer| <= r.value <= |s|
    decreases |s| - j
  {
    if j + |closer| > |s| then None
    else if s[j..j + |closer|] == closer then Some(j + |closer|)
    else if s[j] == '\n' then None
    else FindCloser(s, j + 1, closer)
  }

  /**
   * `s[j..e]` is what `.*?` followed by `closer` matches from `j`: it ends
   * with `closer`, holds no newline before it, and holds no earlier `closer`.
   */
  ghost predicate ClosedAt(s: string, j: nat, e: nat, closer: string)
  {
    && j + |closer| <= e <= |s|
    && s[e - |closer|..e] == closer
    && forall k :: j <= k < e - |closer| ==> s[k] != '\n' && s[k..k + |closer|] != closer
  }

  /** FindCloser finds exactly the lazy match ClosedAt describes. */
  lemma {:induction false} FindCloserSpec(s: string, j: nat, closer: string, e: nat)
    ensures FindCloser(s, j, closer) == Some(e) <==> ClosedAt(s, j, e, closer)
    decreases |s| - j
  {
    if j + |closer| > |s| {
    } else if s[j..j + |closer|] == closer {
      if j < e - |closer| && e <= |s| {
        ghost var first := s[j];
      }
    } else if s[j] == '\n' {
      assert ClosedAt(s, j, e, closer) ==> j < e - |closer|;
    } else {
      FindCloserSpec(s, j + 1, closer, e);
      if ClosedAt(s, j, e, closer) {
        assert j < e - |closer|;
        assert ClosedAt(s, j + 1, e, closer);
      }
    }
  }

  /** A `closer` at `m` with no newline before it from `j` on is found, at `m` or earlier. */
  lemma {:induction false} FindCloserFinds(s: string, j: nat, m: nat, closer: string)
    requires j <= m && m + |closer| <= |s| && s[m..m + |closer|] == closer
    requires forall k :: j <= k < m ==> s[k] != '\n'
    ensures FindCloser(s, j, closer).Some? && FindCloser(s, j, closer).value <= m + |closer|
    decreases m - j
  {
    if s[j..j + |closer|] != closer {
      FindCloserFinds(s, j + 1, m, closer);
    }
  }

  /** The closing delimiter that belongs to the opening `{{` or `{%`. */
  function CloserOf(c: char): string
  {
    if c == '{' then "}}" else "%}"
  }

  /** A `re_tokens` match starting at offset `p`: the offset just past it, if there is one. */
  function MatchAt(s: string, p: nat): (r: Option<nat>)
    ensures r.Some? ==> p + 4 <= r.value <= |s|
  {
    if p + 2 <= |s| && s[p] == '{' && (s[p + 1] == '{' || s[p + 1] == '%') then
      FindCloser(s, p + 2, CloserOf(s[p + 1]))
    else None
  }

  /** `t` is, as a whole, one shortest `{{...}}` or `{%...%}` on a single line. */
  ghost predicate IsDelimiter(t: string)
  {
    |t| >= 4 && t[0] == '{' && (t[1] == '{' || t[1] == '%') && ClosedAt(t, 2, |t|, CloserOf(t[1]))
  }

  /** No part of `t` is a delimiter: `re_tokens` matches nowhere inside it. */
  ghost predicate NoDelimiterIn(t: string)
  {
    forall a, b :: 0 <= a <= b <= |t| ==> !IsDelimiter(t[a..b])
  }

  lemma SliceOfSlice(s: string, x: nat, y: nat, a: nat, b: nat)
    requires x <= y <= |s| && a <= b <= y - x
    ensures s[x..y][a..b] == s[x + a..x + b]
  {
    assert forall i :: 0 <= i < b - a ==> s[x..y][a..b][i] == s[x + a + i];
  }

  /** The lazy match is the same whether it is read in `s` or in the slice `s[p..e]`. */
  lemma ClosedAtShift(s: string, p: nat, j: nat, e: nat, closer: string)
    requires p + j <= e <= |s|
    ensures ClosedAt(s, p + j, e, closer) <==> ClosedAt(s[p..e], j, e - p, closer)
  {
    if ClosedAt(s, p + j, e, closer) {
      ClosedAtToSlice(s, p, j, e, closer);
    }
    if ClosedAt(s[p..e], j, e - p, closer) {
      ClosedAtFromSlice(s, p, j, e, closer);
    }
  }

  lemma ClosedAtToSlice(s: string, p: nat, j: nat, e: nat, closer: string)
    requires p + j <= e <= |s| && ClosedAt(s, p + j, e, closer)
    ensures ClosedAt(s[p..e], j, e - p, closer)
  {
    var t := s[p..e];
    SliceOfSlice(s, p, e, e - p - |closer|, e - p);
    assert t[e - p - |closer|..e - p] == s[e - |closer|..e];
    forall k | j <= k < e - p - |closer|
      ensures t[k] != '\n' && t[k..k + |closer|] != closer
    {
      SliceOfSlice(s, p, e, k, k + |closer|);
      assert t[k] == s[p + k];
      assert t[k..k + |closer|] == s[p + k..p + k + |closer|];
    }
  }

  lemma ClosedAtFromSlice(s: string, p: nat, j: nat, e: nat, closer: string)
    requires p + j <= e <= |s| && ClosedAt(s[p..e], j, e - p, closer)
    ensures ClosedAt(s, p + j, e, closer)
  {
    var t := s[p..e];
    SliceOfSlice(s, p, e, e - p - |closer|, e - p);
    assert s[e - |closer|..e] == t[e - p - |closer|..e - p];
    forall k | p + j <= k < e - |closer|
      ensures s[k] != '\n' && s[k..k + |closer|] != closer
    {
      SliceOfSlice(s, p, e, k - p, k - p + |closer|);
      assert s[k] == t[k - p];
      assert s[k..k + |closer|] == t[k - p..k - p + |closer|];
    }
  }

  /** `re_tokens` matches at `p` and ends at `e` exactly when `s[p..e]` is a delimiter. */
  lemma MatchAtSpec(s: string, p: nat, e: nat)
    requires p <= e <= |s|
    ensures MatchAt(s, p) == Some(e) <==> IsDelimiter(s[p..e])
  {
    var t := s[p..e];
    if p + 2 <= e && s[p] == '{' && (s[p + 1] == '{' || s[p + 1] == '%') {
      assert t[0] == s[p] && t[1] == s[p + 1];
      FindCloserSpec(s, p + 2, CloserOf(s[p + 1]), e);
      ClosedAtShift(s, p, 2, e, CloserOf(s[p + 1]));
    } else if MatchAt(s, p) == Some(e) {
      assert false;
    }
  }

  /** No part of a stretch of text in which `re_tokens` finds no match start is a delimiter. */
  lemma NoMatchNoDelimiter(s: string, start: nat, p: nat)
    requires start <= p <= |s|
    requires forall q :: start <= q < p ==> MatchAt(s, q).None?
    ensures NoDelimiterIn(s[start..p])
  {
    var t := s[start..p];
    forall a, b | 0 <= a <= b <= |t| ensures !IsDelimiter(t[a..b]) {
      SliceOfSlice(s, start, p, a, b);
      MatchAtSpec(s, start + a, start + b);
    }
  }

  /**
   * The left-to-right scan of `re.split`: the literal run from `start`, then
   * the first match at or after `p`, and so on; at the end, the last literal.
   */
  function Scan(s: string, start: nat, p: nat): seq<string>
    requires start <= p <= |s|
    decreases |s| - p
  {
    if p == |s| then [s[start..]]
    else match MatchAt(s, p)
      case Some(e) => [s[start..p], s[p..e]] + Scan(s, e, e)
      case None => Scan(s, start, p + 1)
  }

  /** `re_tokens.split(raw_text)`: literal, delimiter, literal, ..., literal. */
  function Tokenize(s: string): seq<string>
  {
    Scan(s, 0, 0)
  }

  /** Literal, delimiter, literal, ..., literal: the shape `re.split` gives with one capturing group. */
  ghost predicate Alternates(ts: seq<string>)
  {
    && |ts| % 2 == 1
    && (forall i :: 0 <= i < |ts| && i % 2 == 1 ==> IsDelimiter(ts[i]))
    && (forall i :: 0 <= i < |ts| && i % 2 == 0 ==> NoDelimiterIn(ts[i]))
  }

  lemma AlternatesCons(lit: string, d: string, rest: seq<string>)
    requires NoDelimiterIn(lit) && IsDelimiter(d) && Alternates(rest)
    ensures Alternates([lit, d] + rest)
  {
    var ts := [lit, d] + rest;
    forall i | 0 <= i < |ts| && i % 2 == 1 ensures IsDelimiter(ts[i]) {
      if i == 1 {
        assert ts[i] == d;
      } else {
        assert ts[i] == rest[i - 2];
      }
    }
    forall i | 0 <= i < |ts| && i % 2 == 0 ensures NoDelimiterIn(ts[i]) {
      if i == 0 {
        assert ts[i] == lit;
      } else {
        assert ts[i] == rest[i - 2];
      }
    }
  }

  lemma ConcatCons(lit: string, d: string, rest: seq<string>)
    ensures Concat([lit, d] + rest) == lit + d + Concat(rest)
  {
    var ts := [lit, d] + rest;
    assert ts[1..] == [d] + rest;
    assert ts[1..][1..] == rest;
  }

  lemma SplitAt(s: string, start: nat, p: nat, e: nat)
    requires start <= p <= e <= |s|
    ensures s[start..] == s[start..p] + s[p..e] + s[e..]
  {
  }

  lemma {:induction false} ScanSpec(s: string, start: nat, p: nat)
    requires start <= p <= |s|
    requires forall q :: start <= q < p ==> MatchAt(s, q).None?
    ensures Concat(Scan(s, start, p)) == s[start..]
    ensures Alternates(Scan(s, start, p))
    decreases |s| - p
  {
    if p == |s| {
      assert Scan(s, start, p) == [s[start..]];
      NoMatchNoDelimiter(s, start, p);
      assert s[start..p] == s[start..];
      assert Concat([s[start..]]) == s[start..];
    } else {
      match MatchAt(s, p)
      case Some(e) =>
        assert Scan(s, start, p) == [s[start..p], s[p..e]] + Scan(s, e, e);
        ScanSpec(s, e, e);
        NoMatchNoDelimiter(s, start, p);
        MatchAtSpec(s, p, e);
        AlternatesCons(s[start..p], s[p..e], Scan(s, e, e));
        ConcatCons(s[start..p], s[p..e], Scan(s, e, e));
        SplitAt(s, start, p, e);
      case None =>
        assert Scan(s, start, p) == Scan(s, start, p + 1);
        ScanSpec(s, start, p + 1);
    }
  }

  /** `MatchAt` on one text, as a function of the offset alone. */
  function Matcher(s: string): (m: nat -> Option<nat>)
    ensures forall p: nat :: m(p) == MatchAt(s, p)
  {
    p => MatchAt(s, p)
  }

  /** The matcher `m` finds no match at any offset in `[a, b)`. */
  ghost predicate NoMatchIn(m: nat -> Option<nat>, a: nat, b: nat)
  {
    forall q: nat :: a <= q < b ==> m(q).None?
  }

  /**
   * `ts` is what `re.split` gives for `s[start..]` when `m` says where a
   * match starts and where it ends, stated without a scan: a literal in
   * which no match starts, then the match at the first offset where one
   * starts, and so on; the last literal is the match-free rest.
   */
  ghost predicate SplitBy(m: nat -> Option<nat>, s: string, start: nat, ts: seq<string>)
    decreases |ts|
  {
    if |ts| == 1 then
      start <= |s| && ts[0] == s[start..] && NoMatchIn(m, start, |s|)
    else if |ts| >= 3 then
      var p := start + |ts[0]|;
      var e := p + |ts[1]|;
      && p < e <= |s|
      && ts[0] == s[start..p] && NoMatchIn(m, start, p)
      && m(p) == Some(e) && ts[1] == s[p..e]
      && SplitBy(m, s, e, ts[2..])
    else false
  }

  /** `ts` is the leftmost split of `s` by `re_tokens`. */
  ghost predicate LeftmostSplit(s: string, ts: seq<string>)
  {
    SplitBy(Matcher(s), s, 0, ts)
  }

  /** A match-free rest of the text is a split on its own. */
  lemma SplitByLast(m: nat -> Option<nat>, s: string, start: nat)
    requires start <= |s| && NoMatchIn(m, start, |s|)
    ensures SplitBy(m, s, start, [s[start..]])
  {
  }

  /** A literal, the match that follows it and a split of the rest make a split. */
  lemma SplitByCons(m: nat -> Option<nat>, s: string, start: nat, p: nat, e: nat, rest: seq<string>)
    requires start <= p < e <= |s| && NoMatchIn(m, start, p) && m(p) == Some(e)
    requires SplitBy(m, s, e, rest)
    ensures SplitBy(m, s, start, [s[start..p], s[p..e]] + rest)
  {
    var ts := [s[start..p], s[p..e]] + rest;
    assert ts[2..] == rest;
  }

  lemma {:induction false} ScanLeftmost(s: string, start: nat, p: nat)
    requires start <= p <= |s| && NoMatchIn(Matcher(s), start, p)
    ensures SplitBy(Matcher(s), s, start, Scan(s, start, p))
    decreases |s| - p
  {
    var m := Matcher(s);
    if p == |s| {
      assert Scan(s, start, p) == [s[start..]];
      SplitByLast(m, s, start);
    } else {
      match MatchAt(s, p)
      case Some(e) =>
        assert Scan(s, start, p) == [s[start..p], s[p..e]] + Scan(s, e, e);
        ScanLeftmost(s, e, e);
        SplitByCons(m, s, start, p, e, Scan(s, e, e));
      case None =>
        assert Scan(s, start, p) == Scan(s, start, p + 1);
        ScanLeftmost(s, start, p + 1);
    }
  }

  /** A split ends after its first literal exactly when no match starts in the rest of the text. */
  lemma SplitByEnds(m: nat -> Option<nat>, s: string, start: nat, ts: seq<string>)
    requires SplitBy(m, s, start, ts)
    ensures |ts| == 1 <==> NoMatchIn(m, start, |s|)
  {
    if |ts| != 1 {
      var p := start + |ts[0]|;
      assert m(p).Some? && start <= p < |s|;
    }
  }

  /** Two offsets that are each the first match after `start` are the same offset. */
  lemma FirstMatchUnique(m: nat -> Option<nat>, start: nat, p: nat, q: nat)
    requires start <= p && NoMatchIn(m, start, p) && m(p).Some?
    requires start <= q && NoMatchIn(m, start, q) && m(q).Some?
    ensures p == q
  {
    assert !(start <= p < q) && !(start <= q < p);
  }

  /** There is only one split of a text by a given matcher. */
  lemma {:induction false} SplitByUnique(m: nat -> Option<nat>, s: string, start: nat, ts: seq<string>, us: seq<string>)
    requires SplitBy(m, s, start, ts) && SplitBy(m, s, start, us)
    ensures ts == us
    decreases |ts|
  {
    SplitByEnds(m, s, start, ts);
    SplitByEnds(m, s, start, us);
    if |ts| != 1 {
      var p, q := start + |ts[0]|, start + |us[0]|;
      FirstMatchUnique(m, start, p, q);
      assert ts[0] == us[0] && ts[1] == us[1];
      SplitByUnique(m, s, p + |ts[1]|, ts[2..], us[2..]);
      assert ts == [ts[0], ts[1]] + ts[2..];
      assert us == [us[0], us[1]] + us[2..];
    }
  }

  /**
   * The tokens concatenate back to the input; there is an odd number of
   * them; every odd-numbered token is a delimiter; no even-numbered token
   * (a literal, possibly empty) contains one.
   */
  lemma TokenizeSpec(s: string)
    ensures Concat(Tokenize(s)) == s
    ensures |Tokenize(s)| % 2 == 1
    ensures forall i :: 0 <= i < |Tokenize(s)| && i % 2 == 1 ==> IsDelimiter(Tokenize(s)[i])
    ensures forall i :: 0 <= i < |Tokenize(s)| && i % 2 == 0 ==> NoDelimiterIn(Tokenize(s)[i])
  {
    ScanSpec(s, 0, 0);
  }

  /** The tokens are the leftmost split of the text, and no other sequence of tokens is. */
  lemma TokenizeLeftmost(s: string)
    ensures LeftmostSplit(s, Tokenize(s))
    ensures forall ts :: LeftmostSplit(s, ts) ==> ts == Tokenize(s)
  {
    ScanLeftmost(s, 0, 0);
    forall ts | LeftmostSplit(s, ts) ensures ts == Tokenize(s) {
      SplitByUnique(Matcher(s), s, 0, ts, Tokenize(s));
    }
  }

  lemma {:induction false} ScanNoMatch(s: string, start: nat, p: nat)
    requires start <= p <= |s|
    requires forall q :: p <= q < |s| ==> MatchAt(s, q).None?
    ensures Scan(s, start, p) == [s[start..]]
    decreases |s| - p
  {
    if p < |s| {
      ScanNoMatch(s, start, p + 1);
    }
  }

  /** Text without any delimiter is a single literal token. */
  lemma TokenizeNoDelimiter(s: string)
    requires NoDelimiterIn(s)
    ensures Tokenize(s) == [s]
  {
    forall q | 0 <= q < |s| ensures MatchAt(s, q).None? {
      forall e | q <= e <= |s| ensures MatchAt(s, q) != Some(e) {
        MatchAtSpec(s, q, e);
      }
    }
    ScanNoMatch(s, 0, 0);
  }

  /** `re_variable.match(t)`: `\{\{.*?\}\}` at the start of `t`. */
  predicate MatchesVariable(t: string)
  {
    |t| >= 2 && t[0] == '{' && t[1] == '{' && FindCloser(t, 2, "}}").Some?
  }

  /** `re_tag.match(t)`: `\{% .*? %\}` at the start of `t`, blanks included. */
  predicate MatchesTag(t: string)
  {
    |t| >= 3 && t[..3] == "{% " && FindCloser(t, 3, " %}").Some?
  }

  lemma NoMatchAtStart(t: string)
    requires NoDelimiterIn(t)
    ensures MatchAt(t, 0).None?
  {
    forall e | 0 <= e <= |t| ensures MatchAt(t, 0) != Some(e) {
      MatchAtSpec(t, 0, e);
      assert t[0..e] == t[..e];
    }
  }

  /** A literal token matches neither classifier, so it goes to the string handler. */
  lemma LiteralClass(t: string)
    requires NoDelimiterIn(t)
    ensures !MatchesVariable(t) && !MatchesTag(t)
  {
    NoMatchAtStart(t);
    if MatchesTag(t) {
      var e := FindCloser(t, 3, " %}").value;
      FindCloserSpec(t, 3, " %}", e);
      assert t[e - 3..e] == " %}";
      assert t[e - 2..e] == t[e - 3..e][1..];
      assert t[2] == t[..3][2] == ' ';
      assert t[e - 3] == t[e - 3..e][0] == ' ';
      forall k | 2 <= k < e - 2 ensures t[k] != '\n' {
        if 3 <= k < e - 3 {
          assert t[k] != '\n';
        }
      }
      FindCloserFinds(t, 2, e - 2, "%}");
      assert false;
    }
  }

  /**
   * A `{{...}}` token always counts as a variable.  A `{%...%}` token counts
   * as a tag only with a blank after `{%` and before `%}`; otherwise (as in
   * `{%if x%}`) it matches neither classifier and is treated as literal text.
   */
  lemma DelimiterClass(t: string)
    requires IsDelimiter(t)
    ensures MatchesVariable(t) <==> t[1] == '{'
    ensures MatchesTag(t) <==> t[1] == '%' && |t| >= 6 && t[2] == ' ' && t[|t| - 3] == ' '
  {
    VariableDelimiter(t);
    if MatchesTag(t) {
      TagDelimiterHasBlanks(t);
    }
    if t[1] == '%' && |t| >= 6 && t[2] == ' ' && t[|t| - 3] == ' ' {
      BlankDelimiterIsTag(t);
    }
  }

  lemma VariableDelimiter(t: string)
    requires IsDelimiter(t)
    ensures MatchesVariable(t) <==> t[1] == '{'
  {
    MatchAtSpec(t, 0, |t|);
    assert t[0..|t|] == t;
  }

  /** The ` %}` that `re_tag` stops at is the delimiter's own closing one. */
  lemma TagDelimiterHasBlanks(t: string)
    requires IsDelimiter(t) && MatchesTag(t)
    ensures t[1] == '%' && |t| >= 6 && t[2] == ' ' && t[|t| - 3] == ' '
    ensures FindCloser(t, 3, " %}") == Some(|t|)
  {
    assert t[1] == t[..3][1] && t[2] == t[..3][2];
    var e := FindCloser(t, 3, " %}").value;
    FindCloserSpec(t, 3, " %}", e);
    assert t[e - 2..e - 2 + 2] == "%}";
    assert e == |t|;
    assert t[|t| - 3] == t[e - 3..e][0];
  }

  lemma BlankDelimiterIsTag(t: string)
    requires IsDelimiter(t) && t[1] == '%' && |t| >= 6 && t[2] == ' ' && t[|t| - 3] == ' '
    ensures MatchesTag(t)
  {
    assert t[..3] == "{% ";
    assert t[|t| - 3..|t|] == " %}";
    FindCloserFinds(t, 3, |t| - 3, " %}");
  }

  /**
   * How a delimiter is classified: as a variable exactly when it opens with
   * `{{`, as a tag exactly when it opens with `{% ` and closes with ` %}`
   * with two distinct blanks (six characters or more).
   */
  predicate DelimiterClassified(t: string)
  {
    && |t| >= 4
    && (MatchesVariable(t) <==> t[1] == '{')
    && (MatchesTag(t) <==> t[1] == '%' && |t| >= 6 && t[2] == ' ' && t[|t| - 3] == ' ')
  }

  /** How one token of `re_tokens.split` is classified. */
  lemma ClassifyToken(s: string, i: nat)
    requires i < |Tokenize(s)|
    ensures i % 2 == 0 ==> !MatchesVariable(Tokenize(s)[i]) && !MatchesTag(Tokenize(s)[i])
    ensures i % 2 == 1 ==> DelimiterClassified(Tokenize(s)[i])
  {
    var t := Tokenize(s)[i];
    TokenizeSpec(s);
    if i % 2 == 0 {
      assert NoDelimiterIn(t);
      LiteralClass(t);
    } else {
      assert IsDelimiter(t);
      DelimiterClass(t);
    }
  }

  /** How every token of `re_tokens.split` is classified (main.py:64-82). */
  lemma ClassifyTokens(s: string)
    ensures forall i :: 0 <= i < |Tokenize(s)| && i % 2 == 0 ==>
              !MatchesVariable(Tokenize(s)[i]) && !MatchesTag(Tokenize(s)[i])
    ensures forall i :: 0 <= i < |Tokenize(s)| && i % 2 == 1 ==> DelimiterClassified(Tokenize(s)[i])
  {
    forall i | 0 <= i < |Tokenize(s)| {
      ClassifyToken(s, i);
    }
  }
}
