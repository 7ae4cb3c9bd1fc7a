/** The string operations behind the search box: ECMAScript `trim`,
    `toLowerCase` and the case-insensitive prefix test that Dexie's
    `startsWithIgnoreCase` performs on an index. */
module Text {

  /** ECMAScript WhiteSpace and LineTerminator code points, the set that
      `String.prototype.trim` strips. */
  predicate IsWhiteSpace(c: char)
  {
    || c == '\t' || c == '\n' || c == '\U{B}' || c == '\U{C}' || c == '\r'
    || c == ' ' || c == '\U{A0}' || c == '\U{1680}'
    || ('\U{2000}' <= c <= '\U{200A}')
    || c == '\U{2028}' || c == '\U{2029}' || c == '\U{202F}' || c == '\U{205F}'
    || c == '\U{3000}' || c == '\U{FEFF}'
  }

  /** Simple lower-case mapping of the Basic Latin and Latin-1 letters. */
  function LowerChar(c: char): char
  {
    if 'A' <= c <= 'Z' || ('\U{C0}' <= c <= '\U{DE}' && c != '\U{D7}')
    then (c as int + 32) as char
    else c
  }

  function Lower(s: string): string
  {
    seq(|s|, i requires 0 <= i < |s| => LowerChar(s[i]))
  }

  /** `trim` removing leading white space: the result is a suffix of `s`,
      everything removed is white space, and what is left does not start
      with white space. */
  function TrimStart(s: string): (r: string)
    ensures |r| <= |s| && r == s[|s| - |r|..]
    ensures forall k :: 0 <= k < |s| - |r| ==> IsWhiteSpace(s[k])
    ensures r != [] ==> !IsWhiteSpace(r[0])
  {
    if s != [] && IsWhiteSpace(s[0]) then TrimStart(s[1..]) else s
  }

  /** `trim` removing trailing white space: the result is a prefix of `s`,
      everything removed is white space, and what is left does not end
      with white space. */
  function TrimEnd(s: string): (r: string)
    ensures |r| <= |s| && r == s[..|r|]
    ensures forall k :: |r| <= k < |s| ==> IsWhiteSpace(s[k])
    ensures r != [] ==> !IsWhiteSpace(r[|r| - 1])
  {
    if s != [] && IsWhiteSpace(s[|s| - 1]) then TrimEnd(s[..|s| - 1]) else s
  }

  function Trim(s: string): string
  {
    TrimEnd(TrimStart(s))
  }

  /** The query the input handler hands to the search: trimmed, then
      lower-cased. */
  function Normalize(value: string): string
  {
    Lower(Trim(value))
  }

  /** Dexie's `startsWithIgnoreCase(prefix)` on one indexed string. */
  predicate StartsWithIgnoreCase(field: string, prefix: string)
  {
    Lower(prefix) <= Lower(field)
  }

  lemma StartsWithIgnoreCaseAt(field: string, prefix: string)
    ensures StartsWithIgnoreCase(field, prefix) <==>
      |prefix| <= |field| && forall i :: 0 <= i < |prefix| ==> LowerChar(field[i]) == LowerChar(prefix[i])
  {
    if |prefix| <= |field| && forall i :: 0 <= i < |prefix| ==> LowerChar(field[i]) == LowerChar(prefix[i]) {
      assert Lower(prefix) == Lower(field)[..|prefix|];
    }
    if StartsWithIgnoreCase(field, prefix) {
      forall i | 0 <= i < |prefix| ensures LowerChar(field[i]) == LowerChar(prefix[i]) {
        assert Lower(prefix)[i] == Lower(field)[i];
      }
    }
  }

  lemma LowerCharIdempotent(c: char)
    ensures LowerChar(LowerChar(c)) == LowerChar(c)
  {
  }

  lemma LowerIdempotent(s: string)
    ensures Lower(Lower(s)) == Lower(s)
  {
    forall i | 0 <= i < |s| ensures Lower(Lower(s))[i] == Lower(s)[i] {
      LowerCharIdempotent(s[i]);
    }
  }

  /** Lower-casing never turns a character into white space or back. */
  lemma LowerCharKeepsWhiteSpace(c: char)
    ensures IsWhiteSpace(LowerChar(c)) == IsWhiteSpace(c)
  {
  }

  lemma {:induction false} LowerTrimStart(s: string)
    ensures Lower(TrimStart(s)) == TrimStart(Lower(s))
  {
    if s != [] {
      LowerCharKeepsWhiteSpace(s[0]);
      assert Lower(s)[0] == LowerChar(s[0]);
      if IsWhiteSpace(s[0]) {
        assert Lower(s)[1..] == Lower(s[1..]);
        LowerTrimStart(s[1..]);
      }
    }
  }

  lemma {:induction false} LowerTrimEnd(s: string)
    ensures Lower(TrimEnd(s)) == TrimEnd(Lower(s))
  {
    if s != [] {
      LowerCharKeepsWhiteSpace(s[|s| - 1]);
      assert Lower(s)[|s| - 1] == LowerChar(s[|s| - 1]);
      if IsWhiteSpace(s[|s| - 1]) {
        assert Lower(s)[..|s| - 1] == Lower(s[..|s| - 1]);
        LowerTrimEnd(s[..|s| - 1]);
      }
    }
  }

  /** Trimming and lower-casing commute, so the handler's order of the two
      calls does not matter. */
  lemma LowerTrim(s: string)
    ensures Lower(Trim(s)) == Trim(Lower(s))
  {
    LowerTrimStart(s);
    LowerTrimEnd(TrimStart(s));
  }

  lemma {:induction false} TrimStartIdempotent(s: string)
    ensures TrimStart(TrimStart(s)) == TrimStart(s)
  {
    if s != [] && IsWhiteSpace(s[0]) {
      TrimStartIdempotent(s[1..]);
    }
  }

  lemma {:induction false} TrimEndKeepsStart(s: string)
    requires s != [] ==> !IsWhiteSpace(s[0])
    ensures TrimStart(TrimEnd(s)) == TrimEnd(s)
  {
  }

  lemma TrimIdempotent(s: string)
    ensures Trim(Trim(s)) == Trim(s)
  {
    var t := TrimStart(s);
    TrimEndKeepsStart(t);
    assert TrimEnd(t) != [] ==> TrimEnd(t)[0] == t[0];
    TrimEndKeepsStart(TrimEnd(t));
  }

  /** Normalising an already normalised query changes nothing. */
  lemma NormalizeIdempotent(value: string)
    ensures Normalize(Normalize(value)) == Normalize(value)
  {
    LowerTrim(Lower(Trim(value)));
    LowerIdempotent(Trim(value));
    LowerTrim(value);
    LowerTrim(Trim(value));
    TrimIdempotent(Lower(value));
    LowerIdempotent(Trim(Trim(value)));
  }

  /** Two inputs that differ only in letter case normalise to one query. */
  lemma NormalizeIgnoresCase(a: string, b: string)
    requires Lower(a) == Lower(b)
    ensures Normalize(a) == Normalize(b)
  {
    LowerTrim(a);
    LowerTrim(b);
  }

  /** An input made only of white space normalises to the empty query. */
  lemma NormalizeBlank(value: string)
    requires forall k :: 0 <= k < |value| ==> IsWhiteSpace(value[k])
    ensures Normalize(value) == ""
  {
  }

  /** A trimmed string neither starts nor ends with white space. */
  lemma TrimShape(s: string)
    ensures var t := Trim(s); t != [] ==> !IsWhiteSpace(t[0]) && !IsWhiteSpace(t[|t| - 1])
  {
    var u := TrimStart(s);
    var t := TrimEnd(u);
    if t != [] {
      assert t == u[..|t|];
      assert t[0] == u[0];
    }
  }

  /** A normalised query has no surrounding white space and no upper-case
      letter, so the prefix test on it compares lower-cased fields directly. */
  lemma NormalizeShape(value: string)
    ensures var q := Normalize(value);
      && Lower(q) == q
      && (q != [] ==> !IsWhiteSpace(q[0]) && !IsWhiteSpace(q[|q| - 1]))
  {
    var t := Trim(value);
    LowerIdempotent(t);
    TrimShape(value);
    if t != [] {
      LowerCharKeepsWhiteSpace(t[0]);
      LowerCharKeepsWhiteSpace(t[|t| - 1]);
    }
  }

  /** The case-insensitive examples: "Ave Maria" starts with "ave", "AVE"
      and "Ave" but not with "ve". */
  lemma AveMariaExamples()
    ensures StartsWithIgnoreCase("Ave Maria", "ave")
    ensures StartsWithIgnoreCase("Ave Maria", "AVE")
    ensures StartsWithIgnoreCase("Ave Maria", "Ave")
    ensures !StartsWithIgnoreCase("Ave Maria", "ve")
  {
    StartsWithIgnoreCaseAt("Ave Maria", "ave");
    StartsWithIgnoreCaseAt("Ave Maria", "AVE");
    StartsWithIgnoreCaseAt("Ave Maria", "Ave");
    StartsWithIgnoreCaseAt("Ave Maria", "ve");
    assert LowerChar("Ave Maria"[0]) != LowerChar("ve"[0]);
  }
}
