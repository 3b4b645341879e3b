/** Optional values, and JavaScript's truthiness test on an optional string. */
module Wrappers {

  datatype Option<+T> = None | Some(value: T)

  /** `if (s)` on a `string | undefined`: false for undefined and for the empty string. */
  predicate Truthy(s: Option<string>)
  {
    s.Some? && s.value != ""
  }

  /** `a || b` on an optional string with a string fallback. */
  function OrElse(a: Option<string>, b: string): (r: string)
    ensures Truthy(a) ==> r == a.value
    ensures !Truthy(a) ==> r == b
  {
    if Truthy(a) then a.value else b
  }
}
