/**
 * The few Java library rules this model relies on: the string tests of
 * Spring's `StringUtils` and Java's 32-bit `int` arithmetic.
 */
module JavaLang {
  import opened Wrappers

  /** `Character.isWhitespace`: the Unicode space, line and paragraph
      separators except the non-breaking ones, and the ASCII control
      characters TAB, LF, VT, FF, CR and FS, GS, RS, US. */
  predicate IsWhitespace(c: char)
  {
    || c == ' ' || c == '\t' || c == '\n' || c == '\U{000B}' || c == '\U{000C}' || c == '\r'
    || ('\U{001C}' <= c <= '\U{001F}')
    || c == '\U{1680}'
    || ('\U{2000}' <= c <= '\U{2006}')
    || ('\U{2008}' <= c <= '\U{200A}')
    || c == '\U{2028}' || c == '\U{2029}' || c == '\U{205F}' || c == '\U{3000}'
  }

  /** `StringUtils.hasLength`: not null and not empty. */
  predicate HasLength(s: Option<string>)
  {
    s.Some? && |s.value| > 0
  }

  /** `StringUtils.hasText`: not null and holding at least one character
      that is not whitespace. */
  predicate HasText(s: Option<string>)
  {
    s.Some? && exists i :: 0 <= i < |s.value| && !IsWhitespace(s.value[i])
  }

  const TwoTo32: int := 0x1_0000_0000
  const TwoTo31: int := 0x8000_0000

  /** The Java `int` that an unbounded integer wraps around to. */
  function Int32(x: int): (r: int)
    ensures -TwoTo31 <= r < TwoTo31
    ensures (r - x) % TwoTo32 == 0
  {
    var m := x % TwoTo32;
    if m >= TwoTo31 then m - TwoTo32 else m
  }

  /** `Boolean.hashCode`. */
  function BooleanHash(b: bool): int
  {
    if b then 1231 else 1237
  }
}
