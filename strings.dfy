/** The two .NET string tests the weather code relies on: `string.IsNullOrEmpty`
    and `string.IsNullOrWhiteSpace`, over nullable strings. */
module Strings {
  import opened Wrappers

  /** `char.IsWhiteSpace` of .NET: the Unicode space, line and paragraph separators
      (categories Zs, Zl, Zp) together with the control characters U+0009 to U+000D
      and U+0085. */
  predicate IsWhiteSpace(c: char) {
    ('\t' <= c <= '\r') || c == ' ' || c == '\U{0085}' || c == '\U{00A0}' || c == '\U{1680}'
    || ('\U{2000}' <= c <= '\U{200A}') || c == '\U{2028}' || c == '\U{2029}'
    || c == '\U{202F}' || c == '\U{205F}' || c == '\U{3000}'
  }

  /** Whether every character of `s` is white space (vacuously so for ""). */
  function AllWhiteSpace(s: string): (r: bool)
    ensures r <==> forall i :: 0 <= i < |s| ==> IsWhiteSpace(s[i])
  {
    |s| == 0 || (IsWhiteSpace(s[0]) && AllWhiteSpace(s[1..]))
  }

  /** `string.IsNullOrEmpty`. */
  predicate IsNullOrEmpty(s: Option<string>) {
    s.None? || |s.value| == 0
  }

  /** `string.IsNullOrWhiteSpace`: null, empty, or nothing but white space, which is
      the same as "empty after trimming". */
  function IsNullOrWhiteSpace(s: Option<string>): (r: bool)
    ensures !r <==> s.Some? && exists i :: 0 <= i < |s.value| && !IsWhiteSpace(s.value[i])
  {
    s.None? || AllWhiteSpace(s.value)
  }

  /** The white-space test is the weaker of the two: everything null or empty is
      also null or white space, but a string of blanks is only the latter. */
  lemma WhiteSpaceTestIsWeaker(s: Option<string>)
    ensures IsNullOrEmpty(s) ==> IsNullOrWhiteSpace(s)
    ensures IsNullOrWhiteSpace(Some(" ")) && !IsNullOrEmpty(Some(" "))
  {
  }
}
