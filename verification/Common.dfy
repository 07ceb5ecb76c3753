/** Definitions shared by every module. */
module Common {

  datatype Option<+T> = None | Some(value: T)

  /** Python's truth test on an optional string: `None` and the empty string are both false. */
  predicate Truthy(s: Option<string>) {
    s.Some? && s.value != ""
  }

  /** Distance of two days. */
  function Gap(a: int, b: int): (g: nat)
    ensures g == a - b || g == b - a
  {
    if a < b then b - a else a - b
  }

  /** Whitespace that `str.strip` removes. */
  predicate IsSpace(c: char) {
    || '\U{0009}' <= c <= '\U{000D}' || '\U{001C}' <= c <= '\U{0020}' || c == '\U{0085}' || c == '\U{00A0}'
    || c == '\U{1680}' || '\U{2000}' <= c <= '\U{200A}' || c == '\U{2028}' || c == '\U{2029}'
    || c == '\U{202F}' || c == '\U{205F}' || c == '\U{3000}'
  }

  /** True for a comment that `not (comment and comment.strip())` refuses. */
  predicate Blank(s: Option<string>) {
    s.Some? ==> forall i :: 0 <= i < |s.value| ==> IsSpace(s.value[i])
  }
}
