/**
 * The ASCII part of Python's string case rules: `str.lower`, `str.islower` and
 * the single-character `islower` that the style checks rely on. Characters
 * outside `A`-`Z` and `a`-`z` are uncased.
 */
module Text {

  predicate IsUpper(c: char) { 'A' <= c <= 'Z' }

  predicate IsLower(c: char) { 'a' <= c <= 'z' }

  predicate IsCased(c: char) { IsUpper(c) || IsLower(c) }

  /** `c.lower()` for one character. */
  function LowerChar(c: char): (r: char)
    ensures !IsUpper(r)
    ensures IsUpper(c) ==> IsLower(r) && r != c
    ensures !IsUpper(c) ==> r == c
  {
    if IsUpper(c) then (c as int + 32) as char else c
  }

  /** `s.lower()`: every upper-case letter replaced by its lower-case form, nothing else touched. */
  function Lower(s: string): (r: string)
    ensures |r| == |s|
    ensures forall i :: 0 <= i < |s| ==> r[i] == LowerChar(s[i])
  {
    if s == [] then [] else [LowerChar(s[0])] + Lower(s[1..])
  }

  predicate HasUpper(s: string) { exists i :: 0 <= i < |s| && IsUpper(s[i]) }

  /**
   * `s.islower()`: CPython scans the string, answers false at the first
   * upper-case character, and true at the end only if it saw a lower-case one.
   */
  function IsLowerString(s: string): (r: bool)
    ensures r <==> (exists i :: 0 <= i < |s| && IsLower(s[i])) && !HasUpper(s)
  {
    IsLowerScan(s, false)
  }

  function IsLowerScan(s: string, cased: bool): (r: bool)
    ensures r <==> (cased || exists i :: 0 <= i < |s| && IsLower(s[i])) && !HasUpper(s)
  {
    if s == [] then cased
    else if IsUpper(s[0]) then false
    else
      var r := IsLowerScan(s[1..], cased || IsLower(s[0]));
      assert forall i :: 1 <= i < |s| ==> s[i] == s[1..][i - 1];
      assert HasUpper(s[1..]) ==> HasUpper(s);
      r
  }

  /** `s.startswith(prefix)`. */
  predicate StartsWith(s: string, prefix: string): (r: bool)
    ensures r <==> |prefix| <= |s| && forall i :: 0 <= i < |prefix| ==> s[i] == prefix[i]
  {
    prefix <= s
  }

  /** A string is unchanged by `lower()` exactly when it holds no upper-case letter. */
  lemma LowerFixesExactlyCaseless(s: string)
    ensures Lower(s) == s <==> !HasUpper(s)
  {
    if !HasUpper(s) {
      assert forall i :: 0 <= i < |s| ==> Lower(s)[i] == s[i];
    }
  }
}
