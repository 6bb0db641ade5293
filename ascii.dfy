/**
 * ASCII character classes and lower-casing.  Page titles reach the store
 * through the router, so they are made of ASCII letters and digits only;
 * `strings.ToLower` is modelled on that alphabet (other characters are kept).
 */
module Ascii {

  predicate IsUpper(c: char) { 'A' <= c <= 'Z' }

  predicate IsLower(c: char) { 'a' <= c <= 'z' }

  predicate IsDigit(c: char) { '0' <= c <= '9' }

  /** The character class `[a-zA-Z0-9]`. */
  predicate IsAlnum(c: char) { IsUpper(c) || IsLower(c) || IsDigit(c) }

  function LowerChar(c: char): char
  {
    if IsUpper(c) then (c as int + ('a' as int - 'A' as int)) as char else c
  }

  /** `strings.ToLower` restricted to ASCII: every upper-case letter is mapped to its lower-case form. */
  function ToLower(s: string): (r: string)
    ensures |r| == |s|
    ensures forall i :: 0 <= i < |s| ==> r[i] == LowerChar(s[i])
  {
    if s == [] then [] else [LowerChar(s[0])] + ToLower(s[1..])
  }

  /** Lower-casing leaves no upper-case letter behind, and lower-case letters and digits untouched. */
  lemma ToLowerResult(s: string, i: int)
    requires 0 <= i < |s|
    ensures !IsUpper(ToLower(s)[i])
    ensures IsAlnum(s[i]) <==> IsAlnum(ToLower(s)[i])
    ensures !IsUpper(s[i]) ==> ToLower(s)[i] == s[i]
  {
  }

  /** Lower-casing twice is lower-casing once. */
  lemma ToLowerIdempotent(s: string)
    ensures ToLower(ToLower(s)) == ToLower(s)
  {
  }
}
