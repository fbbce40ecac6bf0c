/**
  The parts of the Java platform and of commons-lang3 that the session filter
  relies on: nullable references, the exceptions that reach its handlers,
  `StringUtils.isBlank`, `String.contains` and string concatenation with null.
  These are library code; their behaviour is written out here from their
  documented contracts.
 */
module JavaLang {

  /** A nullable Java reference: `None` stands for `null`. */
  datatype Option<+T> = None | Some(value: T)

  /** A call that either returns a value or throws. */
  datatype Result<+T, +E> = Success(value: T) | Failure(error: E)

  /** A `void` call that either completes or throws. */
  datatype Outcome<+E> = Pass | Fail(error: E)

  /** The Java exceptions that the filter throws or catches. */
  datatype Exception =
    | NullPointer(detail: Option<string>)
    | IllegalArgument(message: string)
    | ClassCast
    | Naming(explanation: string)

  /**
    `Character.isWhitespace`: the Unicode space, line and paragraph separators
    other than the non-breaking ones (U+00A0, U+2007, U+202F), plus the
    controls U+0009..U+000D and U+001C..U+001F.
   */
  predicate IsWhitespace(c: char) {
    || ('\t' <= c <= '\r')
    || ('\U{1C}' <= c <= ' ')
    || c == '\U{1680}'
    || ('\U{2000}' <= c <= '\U{2006}')
    || ('\U{2008}' <= c <= '\U{200A}')
    || c == '\U{2028}' || c == '\U{2029}' || c == '\U{205F}' || c == '\U{3000}'
  }

  /** The scan `StringUtils.isBlank` performs over a non-null string. */
  function AllWhitespace(s: string): (b: bool)
    ensures b <==> forall i :: 0 <= i < |s| ==> IsWhitespace(s[i])
  {
    if s == [] then true else IsWhitespace(s[0]) && AllWhitespace(s[1..])
  }

  /** `StringUtils.isBlank`: null, empty, or whitespace only. */
  predicate IsBlank(s: Option<string>): (b: bool)
    ensures b <==> s.None? || forall i :: 0 <= i < |s.value| ==> IsWhitespace(s.value[i])
  {
    s.None? || AllWhitespace(s.value)
  }

  /** `pat` occurs in `s` starting at index `i`. */
  predicate OccursAt(s: string, pat: string, i: int) {
    0 <= i && i + |pat| <= |s| && s[i..i + |pat|] == pat
  }

  /**
    `String.contains`: try each start position from the left. The search
    finds `pat` exactly when it occurs somewhere.
   */
  function Contains(s: string, pat: string): (b: bool)
    ensures b <==> exists i :: OccursAt(s, pat, i)
    decreases |s|
  {
    if |s| < |pat| then false
    else if s[..|pat|] == pat then
      assert OccursAt(s, pat, 0);
      true
    else
      OccurrencesShift(s, pat);
      Contains(s[1..], pat)
  }

  /** Past a mismatch at the front, the occurrences in `s` are those in `s[1..]`, shifted by one. */
  lemma OccurrencesShift(s: string, pat: string)
    requires |pat| <= |s| && s[..|pat|] != pat
    ensures (exists i :: OccursAt(s, pat, i)) <==> exists i :: OccursAt(s[1..], pat, i)
  {
    forall i | OccursAt(s[1..], pat, i)
      ensures OccursAt(s, pat, i + 1)
    {
      assert s[1..][i..i + |pat|] == s[i + 1..i + 1 + |pat|];
    }
    forall i | OccursAt(s, pat, i)
      ensures OccursAt(s[1..], pat, i - 1)
    {
      assert i != 0;
      assert s[1..][i - 1..i - 1 + |pat|] == s[i..i + |pat|];
    }
  }

  /** The text Java's `+` appends for a possibly null string. */
  function JavaString(s: Option<string>): string {
    if s.None? then "null" else s.value
  }
}
