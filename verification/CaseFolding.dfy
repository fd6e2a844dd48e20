// The two ways the runtime compares a string with a lower-case ASCII literal: strings.EqualFold,
// and equality after strings.ToLower.
module CaseFolding {

  const LONG_S: char := 0x17F as char
  const KELVIN: char := 0x212A as char
  const DOTTED_I: char := 0x130 as char

  predicate IsAscii(s: string) {
    forall i :: 0 <= i < |s| ==> s[i] < 128 as char
  }

  function LowerAscii(c: char): char {
    if 'A' <= c <= 'Z' then (c as int + 32) as char else c
  }

  // unicode.ToLower, except that a character with a lower case outside ASCII stays as it is.
  function LowerChar(c: char): char {
    if c == KELVIN then 'k' else if c == DOTTED_I then 'i' else LowerAscii(c)
  }

  function ToLower(s: string): (r: string)
    ensures |r| == |s| && forall i :: 0 <= i < |s| ==> r[i] == LowerChar(s[i])
  {
    seq(|s|, i requires 0 <= i < |s| => LowerChar(s[i]))
  }

  // Simple folding identifies the long s with s and the Kelvin sign with k.
  predicate FoldsTo(c: char, l: char) {
    LowerAscii(c) == l || (c == KELVIN && l == 'k') || (c == LONG_S && l == 's')
  }

  // strings.EqualFold with a lower-case ASCII literal.
  predicate EqualFold(s: string, lit: string) {
    |s| == |lit| && forall i :: 0 <= i < |s| ==> FoldsTo(s[i], lit[i])
  }

  // The two comparisons agree on a string without the long s, and on one with it only EqualFold
  // can succeed.
  lemma FoldMeansLower(s: string, lit: string)
    requires IsAscii(lit) && EqualFold(s, lit)
    ensures ToLower(s) == lit <==> LONG_S !in s
  {
  }

  // The other way round they agree on a string without the dotted capital I, and on one with it
  // only ToLower can succeed.
  lemma LowerMeansFold(s: string, lit: string)
    requires IsAscii(lit) && ToLower(s) == lit
    ensures EqualFold(s, lit) <==> DOTTED_I !in s
  {
    assert forall i :: 0 <= i < |s| ==> (FoldsTo(s[i], lit[i]) <==> s[i] != DOTTED_I);
  }
}
