/**
 * The part of JavaScript string semantics the forms rely on: `String.prototype.trim`
 * (ECMAScript, section 22.1.3.32), which strips WhiteSpace and LineTerminator code
 * points (ECMAScript, sections 12.2 and 12.3) from both ends.
 */
module JsText {

  /** WhiteSpace or LineTerminator: TAB, VT, FF, SP, NBSP, ZWNBSP, the other Zs code points, LF, CR, LS, PS. */
  predicate IsJsWhitespace(c: char)
  {
    || c == '\t' || c == '\U{000B}' || c == '\U{000C}' || c == ' ' || c == '\U{00A0}' || c == '\U{FEFF}'
    || c == '\U{1680}' || ('\U{2000}' <= c <= '\U{200A}') || c == '\U{202F}' || c == '\U{205F}' || c == '\U{3000}'
    || c == '\n' || c == '\r' || c == '\U{2028}' || c == '\U{2029}'
  }

  /** Every character of `s` is white space (the empty string included). */
  predicate IsBlank(s: string)
  {
    forall i :: 0 <= i < |s| ==> IsJsWhitespace(s[i])
  }

  /** Drops the leading white space: the result is the suffix of `s` that starts at its first non-blank character. */
  function TrimStart(s: string): (t: string)
    ensures |t| <= |s| && t == s[|s| - |t|..]
    ensures forall i :: 0 <= i < |s| - |t| ==> IsJsWhitespace(s[i])
    ensures t != [] ==> !IsJsWhitespace(t[0])
  {
    if s != [] && IsJsWhitespace(s[0]) then TrimStart(s[1..]) else s
  }

  /** Drops the trailing white space: the result is the prefix of `s` that ends at its last non-blank character. */
  function TrimEnd(s: string): (t: string)
    ensures |t| <= |s| && t == s[..|t|]
    ensures forall i :: |t| <= i < |s| ==> IsJsWhitespace(s[i])
    ensures t != [] ==> !IsJsWhitespace(t[|t| - 1])
  {
    if s != [] && IsJsWhitespace(s[|s| - 1]) then TrimEnd(s[..|s| - 1]) else s
  }

  /** `s[i..j]` is what remains of `s` once only white space is cut from both ends. */
  predicate CutsWhitespace(s: string, i: int, j: int)
  {
    && 0 <= i <= j <= |s|
    && (forall k :: 0 <= k < i ==> IsJsWhitespace(s[k]))
    && (forall k :: j <= k < |s| ==> IsJsWhitespace(s[k]))
  }

  /**
   * `s.trim()`: the slice of `s` left once the white space at both ends is gone; a
   * non-empty result starts and ends with a character that is not white space.
   */
  function Trim(s: string): (t: string)
    ensures exists i, j :: CutsWhitespace(s, i, j) && t == s[i..j]
    ensures t != [] ==> !IsJsWhitespace(t[0]) && !IsJsWhitespace(t[|t| - 1])
  {
    var front := TrimStart(s);
    var t := TrimEnd(front);
    TrimIsSlice(s, front, t);
    t
  }

  /** Cutting white space off the front and then off the back of what is left cuts a slice of the input. */
  lemma TrimIsSlice(s: string, front: string, t: string)
    requires |front| <= |s| && front == s[|s| - |front|..]
    requires forall k :: 0 <= k < |s| - |front| ==> IsJsWhitespace(s[k])
    requires |t| <= |front| && t == front[..|t|]
    requires forall k :: |t| <= k < |front| ==> IsJsWhitespace(front[k])
    ensures CutsWhitespace(s, |s| - |front|, |s| - |front| + |t|)
    ensures t == s[|s| - |front|..|s| - |front| + |t|]
  {
    var i := |s| - |front|;
    forall k | i + |t| <= k < |s|
      ensures IsJsWhitespace(s[k])
    {
      assert s[k] == front[k - i];
    }
  }

  /** `!s.trim()` holds exactly for the strings made of white space only. */
  lemma TrimEmptyIffBlank(s: string)
    ensures Trim(s) == "" <==> IsBlank(s)
  {
    var t := TrimStart(s);
    if t == [] {
      assert IsBlank(s);
    } else {
      assert !IsJsWhitespace(s[|s| - |t|]);
    }
  }
}
