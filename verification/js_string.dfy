/**
 * The part of ECMAScript string semantics both core files rely on:
 * `String.prototype.trim` and the blank-string test built on it
 * (`!s.trim()` in the demo widget, `s.trim().length > 0` in the schema).
 * Strings are sequences of characters; lengths count characters.
 */
module JsString {

  /** The characters `trim` removes: ECMAScript's WhiteSpace
      (tab, vertical tab, form feed, space, no-break space, zero width
      no-break space and the Unicode space separators) and its
      LineTerminators (line feed, carriage return, line and paragraph
      separators). */
  predicate IsWhitespace(c: char) {
    || c == '\t' || c == '\n' || c == '\U{B}' || c == '\U{C}' || c == '\r'
    || c == ' ' || c == '\U{A0}' || c == '\U{1680}'
    || ('\U{2000}' <= c <= '\U{200A}')
    || c == '\U{2028}' || c == '\U{2029}' || c == '\U{202F}' || c == '\U{205F}'
    || c == '\U{3000}' || c == '\U{FEFF}'
  }

  /** Every character of `s` is whitespace (this includes the empty string). */
  ghost predicate AllWhitespace(s: string) {
    forall i | 0 <= i < |s| :: IsWhitespace(s[i])
  }

  /** `s` with its leading whitespace removed: a suffix of `s` that is empty
      or starts with a non-whitespace character, and everything dropped was
      whitespace. */
  function TrimStart(s: string): (r: string)
    ensures |r| <= |s| && r == s[|s| - |r|..]
    ensures forall i | 0 <= i < |s| - |r| :: IsWhitespace(s[i])
    ensures r == [] || !IsWhitespace(r[0])
  {
    if s == [] || !IsWhitespace(s[0]) then s else TrimStart(s[1..])
  }

  /** `s` with its trailing whitespace removed: a prefix of `s` that is empty
      or ends with a non-whitespace character, and everything dropped was
      whitespace. */
  function TrimEnd(s: string): (r: string)
    ensures |r| <= |s| && r == s[..|r|]
    ensures forall i | |r| <= i < |s| :: IsWhitespace(s[i])
    ensures r == [] || !IsWhitespace(r[|r| - 1])
  {
    if s == [] || !IsWhitespace(s[|s| - 1]) then s else TrimEnd(s[..|s| - 1])
  }

  /** `String.prototype.trim`: leading and trailing whitespace removed. The
      result is empty or starts and ends with a non-whitespace character;
      `TrimCutsOnlyWhitespace` shows it is a slice of `s` with only
      whitespace cut off on either side. */
  function Trim(s: string): (r: string)
    ensures |r| <= |s|
    ensures r == [] || (!IsWhitespace(r[0]) && !IsWhitespace(r[|r| - 1]))
  {
    TrimEnd(TrimStart(s))
  }

  /** Trimming keeps a contiguous slice of `s` and everything cut off before
      and after it is whitespace. */
  lemma TrimCutsOnlyWhitespace(s: string)
    ensures exists i, j | 0 <= i <= j <= |s| ::
      Trim(s) == s[i..j] && AllWhitespace(s[..i]) && AllWhitespace(s[j..])
  {
    var t := TrimStart(s);
    var i := |s| - |t|;
    var r := TrimEnd(t);
    assert Trim(s) == r == s[i..i + |r|];
    assert AllWhitespace(s[..i]);
    assert AllWhitespace(s[i + |r|..]) by {
      assert s[i + |r|..] == t[|r|..];
    }
  }

  /** The JavaScript truthiness of `s.trim()`: false exactly for blank strings. */
  predicate IsBlank(s: string) {
    Trim(s) == ""
  }

  /** Trimming leaves nothing exactly when every character is whitespace. */
  lemma {:induction false} BlankIffAllWhitespace(s: string)
    ensures IsBlank(s) <==> AllWhitespace(s)
  {
    var t := TrimStart(s);
    var k := |s| - |t|;
    if IsBlank(s) {
      // TrimEnd dropped all of t, so t holds no non-whitespace character;
      // t would start with one if it were not empty. So TrimStart dropped
      // all of s, and everything it drops is whitespace.
      assert t == [];
    } else {
      // The trimmed string keeps a non-whitespace character of s.
      var r := Trim(s);
      assert r == t[..|r|];
      assert t[0] == s[k] && !IsWhitespace(s[k]);
    }
  }
}
