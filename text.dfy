/** Text helpers: `toLowerCase`, `includes`, the case-insensitive search every admin
    list uses, and the whitespace test behind `trim() !== ""`. */
module Text {

  /** `toLowerCase` on one character; only the ASCII letters A-Z are folded. */
  function LowerChar(c: char): char {
    if 'A' <= c <= 'Z' then (c as int + 32) as char else c
  }

  /** `toLowerCase` on a string, one character at a time. */
  function Lower(s: string): (r: string)
    ensures |r| == |s|
    ensures forall i :: 0 <= i < |s| ==> r[i] == LowerChar(s[i])
  {
    seq(|s|, i requires 0 <= i < |s| => LowerChar(s[i]))
  }

  /** Lower-casing twice is lower-casing once. */
  lemma LowerIdempotent(s: string)
    ensures Lower(Lower(s)) == Lower(s)
  {
    assert forall i :: 0 <= i < |s| ==> LowerChar(LowerChar(s[i])) == LowerChar(s[i]);
  }

  /** `hay.includes(needle)`: needle occurs in hay at some position. */
  predicate Includes(hay: string, needle: string) {
    exists i :: 0 <= i <= |hay| - |needle| && OccursAt(hay, needle, i)
  }

  /** needle occurs in hay starting at position i. */
  predicate OccursAt(hay: string, needle: string, i: int) {
    0 <= i <= |hay| - |needle| && hay[i..i + |needle|] == needle
  }

  /** `field.toLowerCase().includes(term.toLowerCase())`. */
  predicate MatchesIgnoringCase(field: string, term: string) {
    Includes(Lower(field), Lower(term))
  }

  /** The empty search term matches every field. */
  lemma EmptyTermMatches(field: string)
    ensures MatchesIgnoringCase(field, "")
  {
    var hay, needle := Lower(field), Lower("");
    assert OccursAt(hay, needle, 0);
  }

  /** A field always matches itself, whatever the case of either side. */
  lemma FieldMatchesItself(field: string)
    ensures MatchesIgnoringCase(field, field)
  {
    var hay := Lower(field);
    assert OccursAt(hay, hay, 0);
  }

  /** Changing the case of the term does not change the outcome of the search. */
  lemma {:induction false} TermCaseIrrelevant(field: string, term: string)
    ensures MatchesIgnoringCase(field, Lower(term)) == MatchesIgnoringCase(field, term)
  {
    LowerIdempotent(term);
  }

  /** The characters `String.prototype.trim` removes: ECMAScript WhiteSpace and LineTerminator. */
  predicate IsJsWhitespace(c: char) {
    var n := c as int;
    n == 9 || n == 10 || n == 11 || n == 12 || n == 13 || n == 32 || n == 160 || n == 5760
    || (8192 <= n <= 8202) || n == 8232 || n == 8233 || n == 8239 || n == 8287 || n == 12288 || n == 65279
  }

  /** `s.trim() === ""`: every character is whitespace. */
  predicate IsBlank(s: string) {
    forall i :: 0 <= i < |s| ==> IsJsWhitespace(s[i])
  }
}
