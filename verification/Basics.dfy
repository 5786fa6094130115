/** Small types shared by the other modules. */
module Basics {

  datatype Option<+T> = None | Some(value: T)

  /** Python's truth test on an optional string: neither absent nor empty. */
  predicate Truthy(s: Option<string>) {
    s.Some? && s.value != ""
  }

  /** Python's `a or b` on optional strings. */
  function Or(a: Option<string>, b: Option<string>): Option<string> {
    if Truthy(a) then a else b
  }
}
