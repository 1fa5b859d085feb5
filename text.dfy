/** String helpers the source takes from JavaScript's String.prototype
    (`trim`, `toLowerCase`, `toUpperCase`, `charAt`, `includes`) and the `\s`
    character class, approximated over ASCII: whitespace is the six ASCII
    white-space characters and case mapping touches only 'A'..'Z' / 'a'..'z'. */
module Text {

  /** A character of JavaScript's `\s` class, and one that `trim` removes (ASCII part). */
  predicate IsSpace(c: char) {
    c == ' ' || c == '\t' || c == '\n' || c == '\r' || c == '\U{000B}' || c == '\U{000C}'
  }

  /** Every character of `s` is white space (so `s.trim()` is empty and falsy). */
  predicate IsBlank(s: string) {
    forall k :: 0 <= k < |s| ==> IsSpace(s[k])
  }

  /** The number of white-space characters `s` starts with. */
  function LeadingSpaces(s: string): (n: nat)
    ensures n <= |s| && (n == |s| || !IsSpace(s[n]))
    ensures forall k :: 0 <= k < n ==> IsSpace(s[k])
  {
    if s != [] && IsSpace(s[0]) then 1 + LeadingSpaces(s[1..]) else 0
  }

  /** The length of `s` without its trailing white space. */
  function TrailingStart(s: string): (n: nat)
    ensures n <= |s| && (n == 0 || !IsSpace(s[n - 1]))
    ensures forall k :: n <= k < |s| ==> IsSpace(s[k])
  {
    if s != [] && IsSpace(s[|s| - 1]) then TrailingStart(s[..|s| - 1]) else |s|
  }

  /** `s.trim()`: the infix of `s` left once its leading and trailing white
      space are removed; empty exactly when `s` is blank. Everything before
      the result and everything after it is white space. */
  function Trim(s: string): (r: string)
    ensures r == [] <==> IsBlank(s)
    ensures r == [] || (!IsSpace(r[0]) && !IsSpace(r[|r| - 1]))
    ensures LeadingSpaces(s) + |r| <= |s| && IsInfixAt(s, r, LeadingSpaces(s))
    ensures forall k :: LeadingSpaces(s) + |r| <= k < |s| ==> IsSpace(s[k])
  {
    var a := LeadingSpaces(s);
    var e := TrailingStart(s[a..]);
    TrimBlank(s, a, e);
    s[a..a + e]
  }

  lemma TrimBlank(s: string, a: nat, e: nat)
    requires a == LeadingSpaces(s) && e == TrailingStart(s[a..])
    ensures e == 0 <==> IsBlank(s)
  {
    if e != 0 {
      assert s[a] == s[a..][0];
    }
  }

  /** Trimming an already trimmed string changes nothing. */
  lemma TrimIdempotent(s: string)
    ensures Trim(Trim(s)) == Trim(s)
  {
    var r := Trim(s);
    if r != [] {
      assert LeadingSpaces(r) == 0;
      assert r[0..] == r;
      assert TrailingStart(r) == |r|;
    }
  }

  /** The ASCII lower-case of one character. */
  function LowerChar(c: char): char {
    if 'A' <= c <= 'Z' then (c as int + 32) as char else c
  }

  /** The ASCII upper-case of one character. */
  function UpperChar(c: char): char {
    if 'a' <= c <= 'z' then (c as int - 32) as char else c
  }

  /** `s.toLowerCase()`, character by character. */
  function ToLower(s: string): (r: string)
    ensures |r| == |s| && forall k :: 0 <= k < |s| ==> r[k] == LowerChar(s[k])
  {
    if s == [] then [] else [LowerChar(s[0])] + ToLower(s[1..])
  }

  /** `s.toUpperCase()`, character by character. */
  function ToUpper(s: string): (r: string)
    ensures |r| == |s| && forall k :: 0 <= k < |s| ==> r[k] == UpperChar(s[k])
  {
    if s == [] then [] else [UpperChar(s[0])] + ToUpper(s[1..])
  }

  /** `s.charAt(0)`: the first character as a string, or "" for the empty string. */
  function FirstChar(s: string): (r: string)
    ensures |r| == (if s == [] then 0 else 1)
    ensures s != [] ==> r[0] == s[0]
  {
    if s == [] then "" else [s[0]]
  }

  /** `haystack.includes(needle)`, scanning start positions left to right. */
  predicate Contains(haystack: string, needle: string)
    decreases |haystack|
  {
    StartsWith(haystack, needle) || (haystack != [] && Contains(haystack[1..], needle))
  }

  /** `needle` is a prefix of `haystack`. */
  predicate StartsWith(haystack: string, needle: string) {
    |needle| <= |haystack| && haystack[..|needle|] == needle
  }

  /** `needle` occurs in `haystack` starting at index `i`. */
  predicate IsInfixAt(haystack: string, needle: string, i: int)
    requires 0 <= i <= |haystack| - |needle|
  {
    haystack[i..i + |needle|] == needle
  }

  /** The scan finds `needle` exactly when it occurs at some position. */
  lemma {:induction false} ContainsIsInfix(haystack: string, needle: string)
    ensures Contains(haystack, needle) <==>
      exists i :: 0 <= i <= |haystack| - |needle| && IsInfixAt(haystack, needle, i)
  {
    if Contains(haystack, needle) {
      if StartsWith(haystack, needle) {
        assert IsInfixAt(haystack, needle, 0);
      } else {
        var rest := haystack[1..];
        ContainsIsInfix(rest, needle);
        var i :| 0 <= i <= |rest| - |needle| && IsInfixAt(rest, needle, i);
        assert haystack[i + 1..i + 1 + |needle|] == rest[i..i + |needle|];
        assert IsInfixAt(haystack, needle, i + 1);
      }
    }
    if exists i :: 0 <= i <= |haystack| - |needle| && IsInfixAt(haystack, needle, i) {
      var i :| 0 <= i <= |haystack| - |needle| && IsInfixAt(haystack, needle, i);
      if i == 0 {
        assert StartsWith(haystack, needle);
      } else {
        var rest := haystack[1..];
        assert rest[i - 1..i - 1 + |needle|] == haystack[i..i + |needle|];
        assert IsInfixAt(rest, needle, i - 1);
        ContainsIsInfix(rest, needle);
      }
    }
  }
}
