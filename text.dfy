/**
 * Lower-casing of topic strings, as done by `str.lower()` in the discovery
 * variant of the bridge. Only the ASCII letters A-Z are folded; every other
 * character is left as it is.
 */
module Text {

  predicate IsUpperAscii(c: char) {
    'A' <= c <= 'Z'
  }

  /** Folds one ASCII capital to its small letter. */
  function LowerChar(c: char): (d: char)
    ensures !IsUpperAscii(d)
    ensures d == c <==> !IsUpperAscii(c)
  {
    if IsUpperAscii(c) then (c as int + 32) as char else c
  }

  /** The string holds no ASCII capital. */
  predicate IsLowerCase(s: string) {
    forall i :: 0 <= i < |s| ==> !IsUpperAscii(s[i])
  }

  /** `s.lower()`: the same string with every ASCII capital folded. */
  function Lower(s: string): (r: string)
    ensures |r| == |s|
    ensures forall i :: 0 <= i < |s| ==> r[i] == LowerChar(s[i])
  {
    if s == [] then [] else [LowerChar(s[0])] + Lower(s[1..])
  }

  /** Whatever goes in, the result is lower case. */
  lemma LowerIsLowerCase(s: string)
    ensures IsLowerCase(Lower(s))
  {
  }

  /** Lower-casing leaves a string alone exactly when it is already lower case. */
  lemma LowerFixesExactlyLowerCase(s: string)
    ensures Lower(s) == s <==> IsLowerCase(s)
  {
  }

  /** Lower-casing twice is lower-casing once. */
  lemma LowerIdempotent(s: string)
    ensures Lower(Lower(s)) == Lower(s)
  {
  }

  /** Lower-casing distributes over concatenation. */
  lemma LowerAppend(a: string, b: string)
    ensures Lower(a + b) == Lower(a) + Lower(b)
  {
  }

  /** Strings that lower-case alike stay so when concatenated. */
  lemma SameLowerAppend(a: string, a': string, c: string, c': string)
    requires Lower(a) == Lower(a') && Lower(c) == Lower(c')
    ensures Lower(a + c) == Lower(a' + c')
  {
    LowerAppend(a, c);
    LowerAppend(a', c');
  }
}
