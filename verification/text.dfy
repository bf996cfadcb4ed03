/** The two `String` predicates the library relies on: `isBlank` and
    `equalsIgnoreCase`. */
module Text {
  import opened Wrappers

  /** Java `Character.isWhitespace` restricted to the ASCII range: tab, line
      feed, vertical tab, form feed, carriage return, the four information
      separators U+001C..U+001F and the space. */
  predicate IsWhitespace(c: char) {
    c == ' ' || (9 <= c as int <= 13) || (28 <= c as int <= 31)
  }

  /** Java `String.isBlank`: empty, or whitespace only. */
  predicate IsBlank(s: string) {
    forall i :: 0 <= i < |s| ==> IsWhitespace(s[i])
  }

  /** ASCII lower-casing of one character. */
  function ToLower(c: char): (d: char)
    ensures 'A' <= c <= 'Z' ==> 'a' <= d <= 'z'
    ensures !('A' <= c <= 'Z') ==> d == c
  {
    if 'A' <= c <= 'Z' then (c as int + 32) as char else c
  }

  /** Java `lit.equalsIgnoreCase(s)` for a literal `lit`: false for a null
      argument, otherwise equal lengths and equal characters after case
      folding. */
  predicate EqualsIgnoreCase(lit: string, s: Option<string>) {
    s.Some? && |s.value| == |lit|
    && forall i :: 0 <= i < |lit| ==> ToLower(lit[i]) == ToLower(s.value[i])
  }
}
