/**
 * The two regular expressions the bundler uses to read the brand file at build time,
 * as deterministic scanners, with the regular-expression semantics stated beside them.
 *
 *   KEY\s*['"]([^'"]+)['"]      a key, optional whitespace, a quoted non-empty value
 *   META:\s*\{[\s\S]*?\}        the META section, up to the first closing brace
 *
 * As with JavaScript's non-global `String.prototype.match`, a search reports the leftmost
 * position at which the expression matches. For both expressions the match at a given
 * position is unique: `\s*` must stop before the quote or brace (neither is whitespace),
 * `[^'"]+` must stop before the closing quote, and the lazy `[\s\S]*?` stops at the first
 * closing brace.
 */
module BrandScan {
  import opened Options

  /** The two quote characters the value expression accepts, in either role. */
  predicate IsQuote(c: char)
  {
    c == '\'' || c == '"'
  }

  /**
   * JavaScript's `\s`: the ECMAScript WhiteSpace and LineTerminator characters
   * (tab, line feed, vertical tab, form feed, carriage return, space, no-break space,
   * the Unicode space separators, line and paragraph separators, and the byte order mark).
   */
  predicate IsSpace(c: char)
  {
    c == '\t' || c == '\n' || c == '\U{000B}' || c == '\U{000C}' || c == '\r' || c == ' '
    || c == '\U{00A0}' || c == '\U{1680}' || ('\U{2000}' <= c <= '\U{200A}')
    || c == '\U{2028}' || c == '\U{2029}' || c == '\U{202F}' || c == '\U{205F}'
    || c == '\U{3000}' || c == '\U{FEFF}'
  }

  /** `word` occurs in `s` at position `i`. */
  predicate HasAt(s: string, i: nat, word: string)
  {
    i + |word| <= |s| && s[i..i + |word|] == word
  }

  /** The end of the run of whitespace that starts at `p`. */
  function SkipSpaces(s: string, p: nat): (q: nat)
    requires p <= |s|
    ensures p <= q <= |s|
    ensures forall m :: p <= m < q ==> IsSpace(s[m])
    ensures q < |s| ==> !IsSpace(s[q])
    decreases |s| - p
  {
    if p < |s| && IsSpace(s[p]) then SkipSpaces(s, p + 1) else p
  }

  /** The first quote at or after `p`, or `|s|` when there is none. */
  function NextQuote(s: string, p: nat): (q: nat)
    requires p <= |s|
    ensures p <= q <= |s|
    ensures forall m :: p <= m < q ==> !IsQuote(s[m])
    ensures q < |s| ==> IsQuote(s[q])
    decreases |s| - p
  {
    if p < |s| && !IsQuote(s[p]) then NextQuote(s, p + 1) else p
  }

  /** The first `c` at or after `p`, or `|s|` when there is none. */
  function NextChar(s: string, p: nat, c: char): (q: nat)
    requires p <= |s|
    ensures p <= q <= |s|
    ensures forall m :: p <= m < q ==> s[m] != c
    ensures q < |s| ==> s[q] == c
    decreases |s| - p
  {
    if p < |s| && s[p] != c then NextChar(s, p + 1, c) else p
  }

  /** The two expressions: a quoted value after `key`, or a brace-delimited section after `key`. */
  datatype Pattern = QuotedValue(key: string) | BraceSection(key: string)

  /** A match: where it starts, the whole matched text, and the captured group (empty for a section). */
  datatype Hit = Hit(index: nat, whole: string, group: string)

  /** The match of `pat` that starts exactly at position `i`, if any. */
  function MatchAt(s: string, pat: Pattern, i: nat): (r: Option<Hit>)
    requires i <= |s|
    ensures r.Some? ==> r.value.index == i && HasAt(s, i, r.value.whole) && HasAt(s, i, pat.key)
    ensures r.Some? && pat.BraceSection? ==> |r.value.whole| > 0 && r.value.whole[|r.value.whole| - 1] == '}'
  {
    if !HasAt(s, i, pat.key) then None
    else
      var j := SkipSpaces(s, i + |pat.key|);
      match pat
      case QuotedValue(_) =>
        if j < |s| && IsQuote(s[j]) then
          var k := NextQuote(s, j + 1);
          if j + 1 < k < |s| then Some(Hit(i, s[i..k + 1], s[j + 1..k])) else None
        else None
      case BraceSection(_) =>
        if j < |s| && s[j] == '{' then
          var c := NextChar(s, j + 1, '}');
          if c < |s| then Some(Hit(i, s[i..c + 1], "")) else None
        else None
  }

  /** The leftmost match of `pat` at or after position `i`. */
  function SearchFrom(s: string, pat: Pattern, i: nat): (r: Option<Hit>)
    requires i <= |s|
    ensures r.Some? ==> i <= r.value.index <= |s| && MatchAt(s, pat, r.value.index) == r
    ensures r.Some? ==> forall p :: i <= p < r.value.index ==> MatchAt(s, pat, p).None?
    ensures r.None? ==> forall p :: i <= p <= |s| ==> MatchAt(s, pat, p).None?
    decreases |s| - i
  {
    var here := MatchAt(s, pat, i);
    if here.Some? then here
    else if i == |s| then None
    else
      SearchFrom(s, pat, i + 1)
  }

  /** `s.match(pat)`: the leftmost match, or `None` (JavaScript's `null`). */
  function Search(s: string, pat: Pattern): (r: Option<Hit>)
    ensures r.Some? ==> r.value.index <= |s| && MatchAt(s, pat, r.value.index) == r
    ensures r.Some? ==> forall p :: 0 <= p < r.value.index ==> MatchAt(s, pat, p).None?
    ensures r.None? ==> forall p :: 0 <= p <= |s| ==> MatchAt(s, pat, p).None?
  {
    SearchFrom(s, pat, 0)
  }

  // ---------- The regular-expression semantics ----------

  /**
   * `key\s*['"]([^'"]+)['"]` matches at `i`, with the opening quote at `j` and the
   * closing quote at `k`.
   */
  ghost predicate ValueMatch(s: string, key: string, i: nat, j: nat, k: nat)
  {
    && HasAt(s, i, key)
    && i + |key| <= j < k < |s|
    && (forall m :: i + |key| <= m < j ==> IsSpace(s[m]))
    && IsQuote(s[j])
    && j + 1 < k
    && (forall m :: j < m < k ==> !IsQuote(s[m]))
    && IsQuote(s[k])
  }

  /**
   * `key\s*\{[\s\S]*?\}` matches at `i`, with the opening brace at `j` and the closing brace
   * at `c`: the lazy `[\s\S]*?` makes `c` the first closing brace after `j`.
   */
  ghost predicate SectionMatch(s: string, key: string, i: nat, j: nat, c: nat)
  {
    && HasAt(s, i, key)
    && i + |key| <= j < c < |s|
    && (forall m :: i + |key| <= m < j ==> IsSpace(s[m]))
    && s[j] == '{'
    && (forall m :: j < m < c ==> s[m] != '}')
    && s[c] == '}'
  }

  /** No quote character is whitespace. */
  lemma QuoteIsNotSpace(c: char)
    ensures IsQuote(c) ==> !IsSpace(c)
  {
  }

  /** The scanner finds a quoted value at `i` exactly when the expression matches there, with that capture. */
  lemma ValueMatchAt(s: string, key: string, i: nat)
    requires i <= |s|
    ensures MatchAt(s, QuotedValue(key), i).Some? <==> exists j: nat, k: nat :: ValueMatch(s, key, i, j, k)
    ensures forall j: nat, k: nat :: ValueMatch(s, key, i, j, k) ==>
      MatchAt(s, QuotedValue(key), i) == Some(Hit(i, s[i..k + 1], s[j + 1..k]))
  {
    forall j: nat, k: nat | ValueMatch(s, key, i, j, k)
      ensures MatchAt(s, QuotedValue(key), i) == Some(Hit(i, s[i..k + 1], s[j + 1..k]))
    {
      QuoteIsNotSpace(s[j]);
      assert SkipSpaces(s, i + |key|) == j;
      assert NextQuote(s, j + 1) == k;
    }
    if MatchAt(s, QuotedValue(key), i).Some? {
      var j := SkipSpaces(s, i + |key|);
      var k := NextQuote(s, j + 1);
      assert ValueMatch(s, key, i, j, k);
    }
  }

  /** The scanner finds a section at `i` exactly when the expression matches there, with that text. */
  lemma SectionMatchAt(s: string, key: string, i: nat)
    requires i <= |s|
    ensures MatchAt(s, BraceSection(key), i).Some? <==> exists j: nat, c: nat :: SectionMatch(s, key, i, j, c)
    ensures forall j: nat, c: nat :: SectionMatch(s, key, i, j, c) ==>
      MatchAt(s, BraceSection(key), i) == Some(Hit(i, s[i..c + 1], ""))
  {
    forall j: nat, c: nat | SectionMatch(s, key, i, j, c)
      ensures MatchAt(s, BraceSection(key), i) == Some(Hit(i, s[i..c + 1], ""))
    {
      assert SkipSpaces(s, i + |key|) == j;
      assert NextChar(s, j + 1, '}') == c;
    }
    if MatchAt(s, BraceSection(key), i).Some? {
      var j := SkipSpaces(s, i + |key|);
      var c := NextChar(s, j + 1, '}');
      assert SectionMatch(s, key, i, j, c);
    }
  }

  /** A captured value is non-empty and holds no quote character. */
  lemma CaptureWellFormed(s: string, key: string)
    ensures Search(s, QuotedValue(key)).Some? ==>
      var v := Search(s, QuotedValue(key)).value.group;
      v != "" && forall m :: 0 <= m < |v| ==> !IsQuote(v[m])
  {
  }

  /**
   * The value search agrees with the expression: it succeeds exactly when the expression
   * matches somewhere, it reports a match with its capture, and no match starts earlier.
   */
  lemma SearchValue(s: string, key: string)
    ensures Search(s, QuotedValue(key)).Some? <==> exists i: nat, j: nat, k: nat :: ValueMatch(s, key, i, j, k)
    ensures Search(s, QuotedValue(key)).Some? ==>
      var h := Search(s, QuotedValue(key)).value;
      (exists j: nat, k: nat :: ValueMatch(s, key, h.index, j, k) && h.group == s[j + 1..k] && h.whole == s[h.index..k + 1])
      && forall i: nat, j: nat, k: nat :: i < h.index ==> !ValueMatch(s, key, i, j, k)
  {
    var r := Search(s, QuotedValue(key));
    forall i: nat, j: nat, k: nat | ValueMatch(s, key, i, j, k)
      ensures r.Some? && r.value.index <= i
    {
      ValueMatchAt(s, key, i);
    }
    if r.Some? {
      var h := r.value;
      ValueMatchAt(s, key, h.index);
      var j: nat, k: nat :| ValueMatch(s, key, h.index, j, k);
      assert h.group == s[j + 1..k] && h.whole == s[h.index..k + 1];
    }
  }

  /**
   * The section search agrees with the expression: it succeeds exactly when the expression
   * matches somewhere, it reports the text up to the first closing brace after the opening one,
   * and no match starts earlier.
   */
  lemma SearchSection(s: string, key: string)
    ensures Search(s, BraceSection(key)).Some? <==> exists i: nat, j: nat, c: nat :: SectionMatch(s, key, i, j, c)
    ensures Search(s, BraceSection(key)).Some? ==>
      var h := Search(s, BraceSection(key)).value;
      (exists j: nat, c: nat :: SectionMatch(s, key, h.index, j, c) && h.whole == s[h.index..c + 1])
      && forall i: nat, j: nat, c: nat :: i < h.index ==> !SectionMatch(s, key, i, j, c)
  {
    var r := Search(s, BraceSection(key));
    forall i: nat, j: nat, c: nat | SectionMatch(s, key, i, j, c)
      ensures r.Some? && r.value.index <= i
    {
      SectionMatchAt(s, key, i);
    }
    if r.Some? {
      var h := r.value;
      SectionMatchAt(s, key, h.index);
      var j: nat, c: nat :| SectionMatch(s, key, h.index, j, c);
      assert h.whole == s[h.index..c + 1];
    }
  }

  /** A brand file line `key 'v'` yields `v` for any non-empty, quote-free `v`. */
  lemma ValueRoundTrip(key: string, v: string)
    requires v != "" && forall m :: 0 <= m < |v| ==> !IsQuote(v[m])
    ensures Search(key + " '" + v + "'", QuotedValue(key)) == Some(Hit(0, key + " '" + v + "'", v))
  {
    var s := key + " '" + v + "'";
    var n := |key|;
    assert HasAt(s, 0, key) by { assert s[0..n] == key; }
    assert ValueMatch(s, key, 0, n + 1, |s| - 1) by {
      forall m | n + 1 < m < |s| - 1 ensures !IsQuote(s[m]) {
        assert s[m] == v[m - n - 2];
      }
    }
    assert MatchAt(s, QuotedValue(key), 0) == Some(Hit(0, s, v)) by {
      ValueMatchAt(s, key, 0);
      assert s[n + 2..|s| - 1] == v;
      assert s[0..|s|] == s;
    }
    assert SearchFrom(s, QuotedValue(key), 0) == Some(Hit(0, s, v));
  }
}
