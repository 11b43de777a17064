/**
 * Letter case of strings, as find_id uses Ruby's `String#downcase`.
 * Only the ASCII letters A-Z are mapped; every other character is kept.
 */
module Text {

  predicate IsUpper(c: char) {
    'A' <= c <= 'Z'
  }

  predicate IsLower(c: char) {
    'a' <= c <= 'z'
  }

  /** Lower-cases one character. */
  function LowerChar(c: char): (r: char)
    ensures !IsUpper(r)
    ensures IsUpper(c) ==> IsLower(r)
    ensures !IsUpper(c) ==> r == c
  {
    if IsUpper(c) then (c as int - 'A' as int + 'a' as int) as char else c
  }

  /** `String#downcase`: lower-cases every character, keeping the length. */
  function Lower(s: string): (r: string)
    ensures |r| == |s|
  {
    if s == [] then [] else [LowerChar(s[0])] + Lower(s[1..])
  }

  /** Position i of the lower-cased string is the lower-cased character i. */
  lemma {:induction false} LowerAt(s: string, i: nat)
    requires i < |s|
    ensures Lower(s)[i] == LowerChar(s[i])
  {
    if i > 0 {
      LowerAt(s[1..], i - 1);
    }
  }

  /** A lower-cased string holds no upper-case letter. */
  lemma LowerHasNoUpper(s: string)
    ensures forall i :: 0 <= i < |Lower(s)| ==> !IsUpper(Lower(s)[i])
  {
    forall i | 0 <= i < |Lower(s)|
      ensures !IsUpper(Lower(s)[i])
    {
      LowerAt(s, i);
    }
  }

  /** Lower-casing twice is lower-casing once. */
  lemma LowerIdempotent(s: string)
    ensures Lower(Lower(s)) == Lower(s)
  {
    var t := Lower(s);
    forall i | 0 <= i < |t|
      ensures Lower(t)[i] == t[i]
    {
      LowerAt(t, i);
      LowerAt(s, i);
    }
  }

  /** Two strings that differ at most in the letter case of their characters. */
  predicate SameIgnoringCase(a: string, b: string) {
    |a| == |b| && forall i :: 0 <= i < |a| ==> LowerChar(a[i]) == LowerChar(b[i])
  }

  /** Equal after `downcase` exactly when the strings differ only in letter case. */
  lemma SameIgnoringCaseIff(a: string, b: string)
    ensures SameIgnoringCase(a, b) <==> Lower(a) == Lower(b)
  {
    if SameIgnoringCase(a, b) {
      forall i | 0 <= i < |a|
        ensures Lower(a)[i] == Lower(b)[i]
      {
        LowerAt(a, i);
        LowerAt(b, i);
      }
    }
    if Lower(a) == Lower(b) {
      forall i | 0 <= i < |a|
        ensures LowerChar(a[i]) == LowerChar(b[i])
      {
        LowerAt(a, i);
        LowerAt(b, i);
      }
    }
  }
}
