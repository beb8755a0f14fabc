/** Case-insensitive substring matching, the test the candidate filter applies to the
    `State` and `Gutter Description` columns (pandas `str.contains(..., case=False)`).
    The patterns are fixed selector words without regular-expression metacharacters,
    so the pattern is matched as plain text. Case folding covers ASCII letters. */
module Text {

  /** Lower-case form of one character: ASCII upper-case letters map to lower case. */
  function Lower(c: char): char
  {
    if 'A' <= c <= 'Z' then (c as int + 32) as char else c
  }

  /** Lower-case form of a string, character by character. */
  function LowerStr(s: string): (r: string)
    ensures |r| == |s|
    ensures forall i :: 0 <= i < |s| ==> r[i] == Lower(s[i])
  {
    seq(|s|, i requires 0 <= i < |s| => Lower(s[i]))
  }

  /** Folding case twice is folding it once. */
  lemma LowerStrIdempotent(s: string)
    ensures LowerStr(LowerStr(s)) == LowerStr(s)
  {
    assert forall i :: 0 <= i < |s| ==> Lower(Lower(s[i])) == Lower(s[i]);
  }

  /** `pat` occurs in `text` at position `i`. */
  predicate OccursAt(text: string, pat: string, i: int)
  {
    0 <= i && i + |pat| <= |text| && text[i..i + |pat|] == pat
  }

  /** Plain substring test, scanning `text` left to right. */
  function HasSubstring(text: string, pat: string): (r: bool)
    ensures r <==> exists i :: OccursAt(text, pat, i)
    decreases |text|
  {
    if |text| < |pat| then
      false
    else if pat <= text then
      assert OccursAt(text, pat, 0);
      true
    else
      var r := HasSubstring(text[1..], pat);
      assert r ==> exists i :: OccursAt(text, pat, i) by {
        if r {
          var j :| OccursAt(text[1..], pat, j);
          assert text[1..][j..j + |pat|] == text[j + 1..j + 1 + |pat|];
          assert OccursAt(text, pat, j + 1);
        }
      }
      assert (exists i :: OccursAt(text, pat, i)) ==> r by {
        if exists i :: OccursAt(text, pat, i) {
          var j :| OccursAt(text, pat, j);
          assert j != 0;
          assert text[1..][j - 1..j - 1 + |pat|] == text[j..j + |pat|];
          assert OccursAt(text[1..], pat, j - 1);
        }
      }
      r
  }

  /** `str.contains(pat, case=False)`: `pat` occurs in `text` once both are case-folded. */
  function ContainsIgnoreCase(text: string, pat: string): (r: bool)
    ensures r <==> exists i :: OccursAt(LowerStr(text), LowerStr(pat), i)
  {
    HasSubstring(LowerStr(text), LowerStr(pat))
  }

  /** Matching is blind to the case of the text being searched. */
  lemma ContainsIgnoresTextCase(text: string, pat: string)
    ensures ContainsIgnoreCase(LowerStr(text), pat) == ContainsIgnoreCase(text, pat)
  {
    LowerStrIdempotent(text);
  }

  /** Matching is blind to the case of the pattern. */
  lemma ContainsIgnoresPatternCase(text: string, pat: string)
    ensures ContainsIgnoreCase(text, LowerStr(pat)) == ContainsIgnoreCase(text, pat)
  {
    LowerStrIdempotent(pat);
  }

  /** The empty text contains no non-empty pattern. */
  lemma EmptyTextContainsNothing(pat: string)
    requires |pat| > 0
    ensures !ContainsIgnoreCase("", pat)
  {
  }
}
