/** The few Ruby string conversions the bank-account code relies on. */
module RubyStrings {
  import opened Wrappers

  /** `to_s` and `"#{v}"` interpolation: nil becomes the empty string. */
  function ToS(v: Option<string>): string
  {
    v.GetOr("")
  }

  /**
   * Unicode White_Space, the set `[[:space:]]` denotes in Ruby for UTF-8 strings:
   * U+0009..U+000D, U+0020, U+0085, U+00A0, U+1680, U+2000..U+200A, U+2028,
   * U+2029, U+202F, U+205F and U+3000.
   */
  predicate IsSpace(c: char)
  {
    ('\t' <= c <= '\r') || c == ' ' || c == '\U{0085}' || c == '\U{00A0}' || c == '\U{1680}'
    || ('\U{2000}' <= c <= '\U{200A}') || c == '\U{2028}' || c == '\U{2029}'
    || c == '\U{202F}' || c == '\U{205F}' || c == '\U{3000}'
  }

  /** ActiveSupport's `blank?`: nil, or a string of whitespace only (the empty string included). */
  predicate Blank(v: Option<string>)
  {
    match v
    case None => true
    case Some(s) => forall i :: 0 <= i < |s| ==> IsSpace(s[i])
  }

  /** ActiveSupport's `present?`. */
  predicate Present(v: Option<string>)
  {
    !Blank(v)
  }
}
