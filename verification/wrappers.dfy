/** The optional value used by every module. */
module Wrappers {
  datatype Option<+T> = None | Some(value: T)

  /** What Python's `str.strip` removes. */
  predicate Space(c: char) {
    || '\U{9}' <= c <= '\U{D}' || '\U{1C}' <= c <= '\U{20}' || '\U{2000}' <= c <= '\U{200A}'
      || '\U{2028}' <= c <= '\U{2029}'
    || c in {'\U{85}', '\U{A0}', '\U{1680}', '\U{202F}', '\U{205F}', '\U{3000}'}
  }

  /** Python's `not text.strip()`: nothing but white space. */
  predicate Blank(text: string) {
    forall i :: 0 <= i < |text| ==> Space(text[i])
  }
}
