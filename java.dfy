/** The few Java language rules the modelled code relies on. */
module Java {
  import opened Wrappers

  const INT_MIN: int := -0x8000_0000
  const INT_MAX: int := 0x7fff_ffff

  /** `Math.toIntExact` succeeds exactly on the values of this range. */
  predicate IsInt32(x: int) {
    INT_MIN <= x <= INT_MAX
  }

  /** String concatenation renders a null reference as the four letters "null". */
  function Render(s: Option<string>): string {
    if s.Some? then s.value else "null"
  }

  /** The ASCII characters `Character.isWhitespace` accepts. */
  predicate IsWhitespace(c: char) {
    c == ' ' || ('\t' <= c <= '\r') || ('\U{1C}' <= c <= '\U{1F}')
  }

  /** A string is blank when it is null or holds whitespace only. */
  predicate IsBlank(s: Option<string>) {
    s.None? || forall i :: 0 <= i < |s.value| ==> IsWhitespace(s.value[i])
  }
}
