/** The parts of Go's `strings` package that the dispatcher relies on. */
module Strs {

  /** strings.HasPrefix */
  predicate HasPrefix(s: string, prefix: string) {
    |prefix| <= |s| && s[..|prefix|] == prefix
  }

  /** strings.TrimPrefix: drops `prefix` once when `s` starts with it. */
  function TrimPrefix(s: string, prefix: string): (r: string)
    ensures HasPrefix(s, prefix) ==> s == prefix + r
    ensures !HasPrefix(s, prefix) ==> r == s
  {
    if HasPrefix(s, prefix) then s[|prefix|..] else s
  }

  /**
   * unicode.ToLower, as far as it can make a character ASCII: the ASCII
   * capitals, U+0130 (capital I with dot above, lowered to 'i') and U+212A
   * (Kelvin sign, lowered to 'k'). Every other character is left alone; Go
   * lowers some of them too, but never to an ASCII character, so comparing
   * the result against an ASCII word gives the same answer.
   */
  function LowerChar(c: char): char {
    if 'A' <= c <= 'Z' then (c as int + 32) as char
    else if c == '\U{0130}' then 'i'
    else if c == '\U{212A}' then 'k'
    else c
  }

  /** strings.ToLower, character by character (see LowerChar). */
  function ToLower(s: string): (r: string)
    ensures |r| == |s|
  {
    seq(|s|, i requires 0 <= i < |s| => LowerChar(s[i]))
  }

  /**
   * Every ASCII capital lowers to its small letter, U+0130 to 'i', U+212A
   * to 'k', and every other character is kept, position by position.
   */
  lemma ToLowerCases(s: string)
    ensures forall i :: 0 <= i < |s| && 'A' <= s[i] <= 'Z' ==> ToLower(s)[i] as int == s[i] as int + 32
    ensures forall i :: 0 <= i < |s| && s[i] == '\U{0130}' ==> ToLower(s)[i] == 'i'
    ensures forall i :: 0 <= i < |s| && s[i] == '\U{212A}' ==> ToLower(s)[i] == 'k'
    ensures forall i :: 0 <= i < |s| && !('A' <= s[i] <= 'Z') && s[i] != '\U{0130}' && s[i] != '\U{212A}' ==> ToLower(s)[i] == s[i]
  {
  }

  /** `s` spells `word` with any of its letters in capitals. */
  ghost predicate CaseVariant(s: string, word: string) {
    |s| == |word| && forall i :: 0 <= i < |s| ==> s[i] == word[i] || ('a' <= word[i] <= 'z' && s[i] as int == word[i] as int - 32)
  }

  /** A lower-case ASCII word is what every one of its case variants lowers to, itself included. */
  lemma LowerCaseVariants(s: string, word: string)
    requires forall i :: 0 <= i < |word| ==> word[i] as int < 128 && !('A' <= word[i] <= 'Z')
    requires CaseVariant(s, word)
    ensures ToLower(s) == word
  {
  }
}
