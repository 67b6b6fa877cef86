/** What the three data-annotation attributes on the model classes accept:
    [Required] on a string, [StringLength(max, MinimumLength = min)] and
    [Range(min, max)]; plus the C# `int` range. */
module Annotations {
  import opened Wrappers

  const IntMinValue: int := -0x8000_0000
  const IntMaxValue: int := 0x7FFF_FFFF

  /** A C# `int`. */
  type Int32 = x: int | IntMinValue <= x <= IntMaxValue

  /** `char.IsWhiteSpace`: the Unicode space, line and paragraph separators,
      the control characters U+0009..U+000D and U+0085. */
  predicate IsWhiteSpace(c: char) {
    || '\U{9}' <= c <= '\U{D}'
    || c == ' ' || c == '\U{85}' || c == '\U{A0}' || c == '\U{1680}'
    || '\U{2000}' <= c <= '\U{200A}'
    || c == '\U{2028}' || c == '\U{2029}' || c == '\U{202F}' || c == '\U{205F}' || c == '\U{3000}'
  }

  /** `string.IsNullOrWhiteSpace`. */
  predicate IsNullOrWhiteSpace(s: Option<string>) {
    s.None? || forall i :: 0 <= i < |s.value| ==> IsWhiteSpace(s.value[i])
  }

  /** [Required] on a string with its default AllowEmptyStrings = false. */
  predicate RequiredString(s: Option<string>) {
    !IsNullOrWhiteSpace(s)
  }

  /** [StringLength(max, MinimumLength = min)]: a null string is left to [Required]. */
  predicate StringLength(s: Option<string>, min: nat, max: nat) {
    s.None? || min <= |s.value| <= max
  }

  /** [Range(double, double.MaxValue)]: the upper bound lies beyond every
      `decimal`, so only the lower bound constrains. */
  predicate RangeRealFrom(v: real, min: real) {
    min <= v
  }

  /** [Range(int, int)], both bounds inclusive. */
  predicate RangeInt(v: int, min: int, max: int) {
    min <= v <= max
  }
}
