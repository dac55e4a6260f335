/**
  The two pieces of JavaScript semantics the request-state code relies on:
  truthiness of a `string | undefined` value, and the `||` operator on such values.
*/
module Js {
  import opened Wrappers

  /** A `string | undefined` value is truthy when it is present and not the empty string. */
  predicate Truthy(x: Option<string>)
  {
    x.Some? && x.value != ""
  }

  /** `a || b`: the left operand when it is truthy, otherwise the right operand (truthy or not). */
  function Or(a: Option<string>, b: Option<string>): Option<string>
  {
    if Truthy(a) then a else b
  }
}
