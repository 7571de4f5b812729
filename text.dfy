/** Whitespace trimming for the frontend (`String.prototype.trim`) and the
    backend (`str.strip`). Both are modelled by one `Strip` over one whitespace
    set: the six ASCII characters that both languages remove. */
module Text {

  /** The whitespace characters removed by trimming: space, tab, line feed,
      carriage return, vertical tab and form feed. These are removed by both
      JavaScript's `trim` and Python's `strip`. The two sets differ beyond them:
      Python also removes U+001C to U+001F and U+0085, and JavaScript also
      removes U+FEFF; neither difference is modelled. */
  predicate IsWhitespace(c: char) {
    c == ' ' || c == '\t' || c == '\n' || c == '\r' || c == '\U{0B}' || c == '\U{0C}'
  }

  /** Every character of `s` is whitespace. */
  predicate AllWhitespace(s: string) {
    forall i :: 0 <= i < |s| ==> IsWhitespace(s[i])
  }

  /** The length of the run of whitespace at the start of `s`. */
  function LeadingWhitespace(s: string): (n: nat)
    ensures n <= |s|
    decreases |s|
  {
    if |s| > 0 && IsWhitespace(s[0]) then 1 + LeadingWhitespace(s[1..]) else 0
  }

  /** The length of the run of whitespace at the end of `s`. */
  function TrailingWhitespace(s: string): (n: nat)
    ensures n <= |s|
    decreases |s|
  {
    if |s| > 0 && IsWhitespace(s[|s| - 1]) then 1 + TrailingWhitespace(s[..|s| - 1]) else 0
  }

  /** Removes leading whitespace. */
  function TrimStart(s: string): string {
    s[LeadingWhitespace(s)..]
  }

  /** Removes trailing whitespace. */
  function TrimEnd(s: string): string {
    s[..|s| - TrailingWhitespace(s)]
  }

  /** `s.trim()` / `s.strip()`: removes whitespace at both ends. */
  function Strip(s: string): string {
    TrimEnd(TrimStart(s))
  }

  /** The leading run is all whitespace and is maximal. */
  lemma {:induction false} LeadingWhitespaceSpec(s: string)
    ensures var n := LeadingWhitespace(s);
      AllWhitespace(s[..n]) && (n < |s| ==> !IsWhitespace(s[n]))
    decreases |s|
  {
    var n := LeadingWhitespace(s);
    if |s| > 0 && IsWhitespace(s[0]) {
      LeadingWhitespaceSpec(s[1..]);
      forall i | 0 <= i < n
        ensures IsWhitespace(s[..n][i])
      {
        if i > 0 {
          assert s[..n][i] == s[1..][..n - 1][i - 1];
        }
      }
      if n < |s| {
        assert s[n] == s[1..][n - 1];
      }
    }
  }

  /** The trailing run is all whitespace and is maximal. */
  lemma {:induction false} TrailingWhitespaceSpec(s: string)
    ensures var n := TrailingWhitespace(s);
      AllWhitespace(s[|s| - n..]) && (n < |s| ==> !IsWhitespace(s[|s| - n - 1]))
    decreases |s|
  {
    var n := TrailingWhitespace(s);
    if |s| > 0 && IsWhitespace(s[|s| - 1]) {
      var init := s[..|s| - 1];
      TrailingWhitespaceSpec(init);
      var tail := s[|s| - n..];
      forall i | 0 <= i < n
        ensures IsWhitespace(tail[i])
      {
        if i < n - 1 {
          assert tail[i] == init[|init| - (n - 1)..][i];
        }
      }
      if n < |s| {
        assert s[|s| - n - 1] == init[|init| - (n - 1) - 1];
      }
    }
  }

  /** `TrimStart` removes a whitespace prefix, and only that: what is left is a
      suffix of `s` that is empty or starts with a non-whitespace character. */
  lemma TrimStartSpec(s: string)
    ensures var r := TrimStart(s);
      && |r| <= |s| && r == s[|s| - |r|..]
      && AllWhitespace(s[..|s| - |r|])
      && (r == [] || !IsWhitespace(r[0]))
  {
    LeadingWhitespaceSpec(s);
  }

  /** `TrimEnd` removes a whitespace suffix, and only that: what is left is a
      prefix of `s` that is empty or ends with a non-whitespace character. */
  lemma TrimEndSpec(s: string)
    ensures var r := TrimEnd(s);
      && |r| <= |s| && r == s[..|r|]
      && AllWhitespace(s[|r|..])
      && (r == [] || !IsWhitespace(r[|r| - 1]))
  {
    TrailingWhitespaceSpec(s);
  }

  /** The stripped string is no longer than `s`; when not empty it starts and
      ends with a non-whitespace character. */
  lemma StripSpec(s: string)
    ensures var r := Strip(s);
      && |r| <= |s|
      && (r == [] || (!IsWhitespace(r[0]) && !IsWhitespace(r[|r| - 1])))
  {
    var t := TrimStart(s);
    TrimStartSpec(s);
    TrimEndSpec(t);
  }

  /** True when nothing but whitespace remains after stripping. */
  predicate IsBlank(s: string) {
    Strip(s) == []
  }

  /** A string is blank exactly when every character of it is whitespace. */
  lemma BlankIffAllWhitespace(s: string)
    ensures IsBlank(s) <==> AllWhitespace(s)
  {
    var t := TrimStart(s);
    TrimStartSpec(s);
    TrimEndSpec(t);
    if !AllWhitespace(s) {
      var k :| 0 <= k < |s| && !IsWhitespace(s[k]);
      assert t[k - (|s| - |t|)] == s[k];
    }
  }

  /** Trailing whitespace never reaches into a prefix whose last character is not
      whitespace. */
  lemma {:induction false} TrailingWhitespaceOfSuffix(p: string, q: string)
    requires |p| > 0 && !IsWhitespace(p[|p| - 1])
    ensures TrailingWhitespace(p + q) == TrailingWhitespace(q)
    decreases |q|
  {
    if |q| == 0 {
      assert p + q == p;
    } else if IsWhitespace(q[|q| - 1]) {
      assert (p + q)[..|p + q| - 1] == p + q[..|q| - 1];
      TrailingWhitespaceOfSuffix(p, q[..|q| - 1]);
    }
  }

  /** Trimming the end never eats into a prefix whose last character is not whitespace. */
  lemma TrimEndKeepsPrefix(p: string, q: string)
    requires |p| > 0 && !IsWhitespace(p[|p| - 1])
    ensures TrimEnd(p + q) == p + TrimEnd(q)
  {
    TrailingWhitespaceOfSuffix(p, q);
    assert (p + q)[..|p + q| - TrailingWhitespace(q)] == p + q[..|q| - TrailingWhitespace(q)];
  }

  /** A string starting with a prefix that has no whitespace and ends in a
      non-whitespace character keeps that prefix when stripped. */
  lemma StripKeepsPrefix(p: string, q: string)
    requires |p| > 0 && !IsWhitespace(p[0]) && !IsWhitespace(p[|p| - 1])
    ensures Strip(p + q) == p + TrimEnd(q)
  {
    assert LeadingWhitespace(p + q) == 0;
    assert TrimStart(p + q) == p + q;
    TrimEndKeepsPrefix(p, q);
  }
}
