/**
  Case-insensitive string equality as Kotlin's `String.equals(other,
  ignoreCase = true)` decides it: equal lengths, and each pair of characters
  equal, or equal after upper-casing, or equal after upper- then lower-casing.
  Only the ASCII letters have case mappings in this model.
 */
module CaseFold {

  /** `Char.uppercaseChar()` restricted to ASCII. */
  function UpperAscii(c: char): char {
    if 'a' <= c <= 'z' then (c as int - 32) as char else c
  }

  /** `Char.lowercaseChar()` restricted to ASCII. */
  function LowerAscii(c: char): char {
    if 'A' <= c <= 'Z' then (c as int + 32) as char else c
  }

  /** `Char.equals(other, ignoreCase = true)`. */
  predicate CharEqualsIgnoreCase(a: char, b: char) {
    || a == b
    || UpperAscii(a) == UpperAscii(b)
    || LowerAscii(UpperAscii(a)) == LowerAscii(UpperAscii(b))
  }

  /** `String.equals(other, ignoreCase = true)`. */
  predicate EqualsIgnoreCase(s: string, t: string) {
    |s| == |t| && forall i :: 0 <= i < |s| ==> CharEqualsIgnoreCase(s[i], t[i])
  }

  /** The string with every ASCII capital replaced by its small letter. */
  function LowerAll(s: string): string {
    seq(|s|, i requires 0 <= i < |s| => LowerAscii(s[i]))
  }

  /** Two characters match ignoring case iff they have the same small form. */
  lemma CharEqualsIgnoreCaseIff(a: char, b: char)
    ensures CharEqualsIgnoreCase(a, b) <==> LowerAscii(a) == LowerAscii(b)
  {
  }

  /** Two strings match ignoring case iff their small forms are equal. */
  lemma EqualsIgnoreCaseIff(s: string, t: string)
    ensures EqualsIgnoreCase(s, t) <==> LowerAll(s) == LowerAll(t)
  {
    forall i | 0 <= i < |s| && i < |t| {
      CharEqualsIgnoreCaseIff(s[i], t[i]);
    }
    if LowerAll(s) == LowerAll(t) {
      forall i | 0 <= i < |s|
        ensures CharEqualsIgnoreCase(s[i], t[i])
      {
        assert LowerAll(s)[i] == LowerAll(t)[i];
      }
    }
  }

  /** Matching ignoring case is an equivalence relation on strings. */
  lemma EqualsIgnoreCaseIsEquivalence(s: string, t: string, u: string)
    ensures EqualsIgnoreCase(s, s)
    ensures EqualsIgnoreCase(s, t) ==> EqualsIgnoreCase(t, s)
    ensures EqualsIgnoreCase(s, t) && EqualsIgnoreCase(t, u) ==> EqualsIgnoreCase(s, u)
  {
  }
}
