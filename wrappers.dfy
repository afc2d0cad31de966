/** Absent-or-present values: `None` stands for JavaScript's `undefined`/`null`. */
module Wrappers {

  datatype Option<+T> = None | Some(value: T)

  /** JavaScript truthiness of an optional string: absent and "" are both falsy. */
  predicate Truthy(s: Option<string>) {
    s.Some? && s.value != ""
  }

  /**
   * `x || undefined` for an optional string: the truthiness is kept, no
   * value is invented, and the result is never the empty string.
   */
  function OrAbsent(s: Option<string>): (r: Option<string>)
    ensures Truthy(r) <==> Truthy(s)
    ensures r.Some? ==> r == s && r.value != ""
  {
    if Truthy(s) then s else None
  }
}
