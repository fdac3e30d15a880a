/**
 * The string methods the chatbot relies on: `lower`, `upper`, `capitalize`
 * and `isalnum`, over the ASCII letters and digits.
 */
module Text {

  predicate IsUpperChar(c: char) { 'A' <= c <= 'Z' }
  predicate IsLowerChar(c: char) { 'a' <= c <= 'z' }
  predicate IsDigitChar(c: char) { '0' <= c <= '9' }
  predicate IsAlnumChar(c: char) { IsUpperChar(c) || IsLowerChar(c) || IsDigitChar(c) }

  function LowerChar(c: char): char {
    if IsUpperChar(c) then (c as int + 32) as char else c
  }

  function UpperChar(c: char): char {
    if IsLowerChar(c) then (c as int - 32) as char else c
  }

  /** `s.lower()` */
  function Lower(s: string): string {
    seq(|s|, i requires 0 <= i < |s| => LowerChar(s[i]))
  }

  /** `s.upper()` */
  function Upper(s: string): string {
    seq(|s|, i requires 0 <= i < |s| => UpperChar(s[i]))
  }

  /** `s.capitalize()`: the first character upper-cased, the rest lower-cased. */
  function Capitalize(s: string): string {
    if |s| == 0 then "" else [UpperChar(s[0])] + Lower(s[1..])
  }

  /** `s.isalnum()`: at least one character, and every character a letter or a digit. */
  predicate IsAlnum(s: string) {
    |s| > 0 && forall i :: 0 <= i < |s| ==> IsAlnumChar(s[i])
  }

  /**
   * If the upper-cased form of `w` is already in capitalized form, then
   * capitalizing `w` gives that same string: apart from its first character
   * it has no letters, so case mapping leaves the tail alone.
   */
  lemma CapitalizeMatchesUpper(w: string)
    requires Capitalize(Upper(w)) == Upper(w)
    ensures Capitalize(w) == Upper(w)
  {
    if |w| > 0 {
      var u := Upper(w);
      forall i | 1 <= i < |w|
        ensures LowerChar(w[i]) == u[i]
      {
        assert Capitalize(u)[i] == Lower(u[1..])[i - 1] == LowerChar(u[i]);
        assert !IsUpperChar(w[i]) && !IsLowerChar(w[i]);
      }
      assert Capitalize(w) == u by {
        forall i | 0 <= i < |w| ensures Capitalize(w)[i] == u[i] {
          if i > 0 { assert Capitalize(w)[i] == Lower(w[1..])[i - 1]; }
        }
      }
    }
  }
}
