/**
 * JavaScript's `String.prototype.trim`, which both forms use to decide
 * whether a name is blank and to clean what they submit.
 */
module Strings {

  /** ECMAScript's WhiteSpace and LineTerminator code points: what `trim` strips. */
  predicate IsWhitespace(c: char) {
    || c == '\t' || c == '\n' || c == '\U{000B}' || c == '\U{000C}' || c == '\r' || c == ' '
    || c == '\U{00A0}' || c == '\U{1680}' || ('\U{2000}' <= c <= '\U{200A}')
    || c == '\U{2028}' || c == '\U{2029}' || c == '\U{202F}' || c == '\U{205F}'
    || c == '\U{3000}' || c == '\U{FEFF}'
  }

  /** The index of the first non-whitespace character at or after `i`, or `|s|`. */
  function SkipLeading(s: string, i: nat): (j: nat)
    requires i <= |s|
    ensures i <= j <= |s|
    ensures forall k :: i <= k < j ==> IsWhitespace(s[k])
    ensures j < |s| ==> !IsWhitespace(s[j])
    decreases |s| - i
  {
    if i < |s| && IsWhitespace(s[i]) then SkipLeading(s, i + 1) else i
  }

  /** The end of `s[lo..j]` once its trailing whitespace is dropped. */
  function SkipTrailing(s: string, lo: nat, j: nat): (e: nat)
    requires lo <= j <= |s|
    ensures lo <= e <= j
    ensures forall k :: e <= k < j ==> IsWhitespace(s[k])
    ensures lo < e ==> !IsWhitespace(s[e - 1])
  {
    if lo < j && IsWhitespace(s[j - 1]) then SkipTrailing(s, lo, j - 1) else j
  }

  /** Where the trimmed text starts in `s`. */
  function TrimStart(s: string): nat {
    SkipLeading(s, 0)
  }

  /** Where the trimmed text ends in `s`. */
  function TrimEnd(s: string): nat {
    SkipTrailing(s, TrimStart(s), |s|)
  }

  /**
   * `s.trim()`: empty exactly when `s` is all whitespace, and otherwise
   * neither starting nor ending with whitespace.
   */
  function Trim(s: string): (r: string)
    ensures |r| <= |s|
    ensures r == [] <==> IsBlank(s)
    ensures r == [] || (!IsWhitespace(r[0]) && !IsWhitespace(r[|r| - 1]))
  {
    var i := TrimStart(s);
    var e := TrimEnd(s);
    assert e == i ==> forall k :: 0 <= k < |s| ==> IsWhitespace(s[k]) by {
      forall k | e == i && 0 <= k < |s| ensures IsWhitespace(s[k]) {
        if k >= i {
          assert e <= k < |s|;
        }
      }
    }
    s[i..e]
  }

  /**
   * What `trim` leaves is the slice of `s` between its leading and its
   * trailing whitespace: everything before and after it is whitespace.
   */
  lemma TrimShape(s: string)
    ensures var r, i := Trim(s), TrimStart(s);
      && i + |r| <= |s| && r == s[i..i + |r|]
      && (forall k :: 0 <= k < i ==> IsWhitespace(s[k]))
      && (forall k :: i + |r| <= k < |s| ==> IsWhitespace(s[k]))
  {
  }

  /**
   * A string is blank when it is all whitespace, which is when `trim` leaves
   * nothing of it: JavaScript's `!s.trim()`.
   */
  predicate IsBlank(s: string) {
    forall k :: 0 <= k < |s| ==> IsWhitespace(s[k])
  }

  /** Trimming an already trimmed string changes nothing. */
  lemma TrimIdempotent(s: string)
    ensures Trim(Trim(s)) == Trim(s)
  {
    var r := Trim(s);
    if r != [] {
      assert TrimStart(r) == 0;
      assert TrimEnd(r) == |r|;
    }
  }
}
