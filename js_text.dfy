/**
 * The two pieces of JavaScript string semantics the page's logic relies on:
 * the regular-expression class `\s` and `String.prototype.trim`, which removes
 * exactly the characters of that class from both ends of a string.
 */
module JsText {

  /** Membership in the `\s` class of ECMAScript regular expressions
      (WhiteSpace and LineTerminator code points). No ASCII letter, digit,
      `@` or `.` is in it, so the class is disjoint from the other
      characters the e-mail pattern names. */
  predicate IsWhitespace(c: char): (ws: bool)
    ensures ws ==> c != '@' && c != '.'
    ensures ws ==> !('0' <= c <= '9') && !('a' <= c <= 'z') && !('A' <= c <= 'Z')
  {
    c == '\t' || c == '\n' || c == '\U{000B}' || c == '\U{000C}' || c == '\r' || c == ' '
    || c == '\U{00A0}' || c == '\U{1680}' || ('\U{2000}' <= c <= '\U{200A}')
    || c == '\U{2028}' || c == '\U{2029}' || c == '\U{202F}' || c == '\U{205F}'
    || c == '\U{3000}' || c == '\U{FEFF}'
  }

  /** Every character of `s` is whitespace (true of the empty string). */
  predicate AllWhitespace(s: string) {
    forall i :: 0 <= i < |s| ==> IsWhitespace(s[i])
  }

  /** No character of `s` is whitespace. */
  predicate NoWhitespace(s: string) {
    forall i :: 0 <= i < |s| ==> !IsWhitespace(s[i])
  }

  /** `s` with its leading whitespace removed: a suffix of `s` that is empty
      or starts with a non-whitespace character, and only whitespace was cut. */
  function TrimStart(s: string): (r: string)
    ensures |r| <= |s| && r == s[|s| - |r|..]
    ensures AllWhitespace(s[..|s| - |r|])
    ensures r == [] || !IsWhitespace(r[0])
  {
    if s == [] || !IsWhitespace(s[0]) then s
    else
      var r := TrimStart(s[1..]);
      WhitespaceInFront(s, r);
      r
  }

  /** `s` with its trailing whitespace removed: a prefix of `s` that is empty
      or ends with a non-whitespace character, and only whitespace was cut. */
  function TrimEnd(s: string): (r: string)
    ensures |r| <= |s| && r == s[..|r|]
    ensures AllWhitespace(s[|r|..])
    ensures r == [] || !IsWhitespace(r[|r| - 1])
  {
    if s == [] || !IsWhitespace(s[|s| - 1]) then s
    else
      var r := TrimEnd(s[..|s| - 1]);
      WhitespaceBehind(s, r);
      r
  }

  /** A suffix of `s[1..]` after whitespace is a suffix of `s` after
      whitespace when `s` starts with whitespace. */
  lemma WhitespaceInFront(s: string, r: string)
    requires s != [] && IsWhitespace(s[0])
    requires |r| <= |s| - 1 && r == s[1..][|s| - 1 - |r|..] && AllWhitespace(s[1..][..|s| - 1 - |r|])
    ensures r == s[|s| - |r|..] && AllWhitespace(s[..|s| - |r|])
  {
    assert s[..|s| - |r|] == [s[0]] + s[1..][..|s| - 1 - |r|];
  }

  /** A prefix of all but the last character before whitespace is a prefix
      of `s` before whitespace when `s` ends with whitespace. */
  lemma WhitespaceBehind(s: string, r: string)
    requires s != [] && IsWhitespace(s[|s| - 1])
    requires |r| <= |s| - 1 && r == s[..|s| - 1][..|r|] && AllWhitespace(s[..|s| - 1][|r|..])
    ensures r == s[..|r|] && AllWhitespace(s[|r|..])
  {
    assert s[|r|..] == s[..|s| - 1][|r|..] + [s[|s| - 1]];
  }

  /** `String.prototype.trim`: both ends cut down to a character that is not
      whitespace, or to nothing. */
  function Trim(s: string): (r: string)
    ensures |r| <= |s|
    ensures r == [] || (!IsWhitespace(r[0]) && !IsWhitespace(r[|r| - 1]))
  {
    TrimEnd(TrimStart(s))
  }

  /** What `trim` cuts: `s` is the result with whitespace only before and
      after it. */
  lemma TrimCutsWhitespace(s: string)
    ensures exists before, after :: s == before + (Trim(s) + after)
                                    && AllWhitespace(before) && AllWhitespace(after)
  {
    var t := TrimStart(s);
    CutAround(s, t, TrimEnd(t));
  }

  /** A suffix `t` of `s` after a whitespace prefix, and a prefix `r` of `t`
      before a whitespace suffix, leave `r` with whitespace around it in `s`. */
  lemma CutAround(s: string, t: string, r: string)
    requires |t| <= |s| && t == s[|s| - |t|..] && AllWhitespace(s[..|s| - |t|])
    requires |r| <= |t| && r == t[..|r|] && AllWhitespace(t[|r|..])
    ensures exists before, after :: s == before + (r + after)
                                    && AllWhitespace(before) && AllWhitespace(after)
  {
    var before, after := s[..|s| - |t|], t[|r|..];
    assert s == before + t;
    assert t == r + after;
  }

  /** Cutting trailing whitespace leaves nothing exactly for strings of
      whitespace only. */
  lemma TrimEndBlank(s: string)
    ensures TrimEnd(s) == [] <==> AllWhitespace(s)
  {
    var r := TrimEnd(s);
    if r == [] {
      assert s[|r|..] == s;
    } else {
      assert r[|r| - 1] == s[|r| - 1];
    }
  }

  /** Cutting leading whitespace leaves nothing exactly for strings of
      whitespace only. */
  lemma {:induction false} TrimStartBlank(s: string)
    ensures TrimStart(s) == [] <==> AllWhitespace(s)
  {
    if s != [] && IsWhitespace(s[0]) {
      TrimStartBlank(s[1..]);
      assert AllWhitespace(s) <==> AllWhitespace(s[1..]) by {
        if AllWhitespace(s[1..]) {
          forall k | 0 < k < |s| ensures IsWhitespace(s[k]) {
            assert s[k] == s[1..][k - 1];
          }
        }
      }
    }
  }

  /** `trim` yields the empty string exactly for strings of whitespace only. */
  lemma TrimBlank(s: string)
    ensures Trim(s) == [] <==> AllWhitespace(s)
  {
    var t := TrimStart(s);
    TrimStartBlank(s);
    TrimEndBlank(t);
    if t != [] {
      assert !IsWhitespace(t[0]);
    }
  }
}
