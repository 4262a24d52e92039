/**
 * ASCII case mapping. The controller normalises the requested image type with
 * Kotlin's String.lowercase(); this module models that call on the ASCII range,
 * which is all that matters for the two accepted values "png" and "jpeg".
 */
module Ascii {

  predicate IsUpper(c: char) { 'A' <= c <= 'Z' }

  predicate IsLower(c: char) { 'a' <= c <= 'z' }

  /** Position of a letter in the alphabet, 0 for 'a' or 'A'. */
  function LetterIndex(c: char): int
  {
    if IsUpper(c) then c as int - 'A' as int else c as int - 'a' as int
  }

  /** Maps an upper-case ASCII letter to the same letter in lower case, and leaves every other character alone. */
  function LowerChar(c: char): (r: char)
    ensures !IsUpper(r)
    ensures !IsUpper(c) ==> r == c
    ensures IsUpper(c) ==> IsLower(r) && LetterIndex(r) == LetterIndex(c)
  {
    if IsUpper(c) then (c as int - 'A' as int + 'a' as int) as char else c
  }

  /** String-wide lowercase: the same length, each character mapped with LowerChar. */
  function Lowercase(s: string): (r: string)
    ensures |r| == |s|
    ensures forall i :: 0 <= i < |s| ==> r[i] == LowerChar(s[i])
  {
    if s == [] then [] else [LowerChar(s[0])] + Lowercase(s[1..])
  }

  predicate IsLetter(c: char) { IsUpper(c) || IsLower(c) }

  /**
   * Two strings are equal up to ASCII case: position by position the characters
   * are the same, or both are letters at the same place in the alphabet.
   */
  predicate EqualsIgnoreCase(a: string, b: string)
  {
    && |a| == |b|
    && forall i :: 0 <= i < |a| ==>
         a[i] == b[i] || (IsLetter(a[i]) && IsLetter(b[i]) && LetterIndex(a[i]) == LetterIndex(b[i]))
  }

  /** Two characters lowercase alike exactly when they are equal up to case. */
  lemma LowerCharEqualIff(x: char, y: char)
    ensures LowerChar(x) == LowerChar(y)
        <==> x == y || (IsLetter(x) && IsLetter(y) && LetterIndex(x) == LetterIndex(y))
  {
    if IsLetter(x) && IsLetter(y) && LetterIndex(x) == LetterIndex(y) {
      assert LowerChar(x) as int == LowerChar(y) as int;
    }
  }

  /** Lowercasing leaves no upper-case letter behind. */
  lemma LowercaseHasNoUpper(s: string)
    ensures forall i :: 0 <= i < |s| ==> !IsUpper(Lowercase(s)[i])
  {
  }

  /** A string without upper-case letters is its own lowercase. */
  lemma LowercaseFixesLower(s: string)
    requires forall i :: 0 <= i < |s| ==> !IsUpper(s[i])
    ensures Lowercase(s) == s
  {
  }

  /** Lowercasing twice is lowercasing once. */
  lemma LowercaseIdempotent(s: string)
    ensures Lowercase(Lowercase(s)) == Lowercase(s)
  {
    LowercaseHasNoUpper(s);
    LowercaseFixesLower(Lowercase(s));
  }

  /** Comparing lowercased forms is comparing up to case. */
  lemma LowercaseEqualIffEqualsIgnoreCase(a: string, b: string)
    ensures Lowercase(a) == Lowercase(b) <==> EqualsIgnoreCase(a, b)
  {
    if |a| == |b| {
      forall i | 0 <= i < |a| {
        LowerCharEqualIff(a[i], b[i]);
      }
      if EqualsIgnoreCase(a, b) {
        assert forall i :: 0 <= i < |a| ==> Lowercase(a)[i] == Lowercase(b)[i];
      }
      if Lowercase(a) == Lowercase(b) {
        assert forall i :: 0 <= i < |a| ==> LowerChar(a[i]) == LowerChar(b[i]);
      }
    }
  }
}
