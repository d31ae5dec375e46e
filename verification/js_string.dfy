/** JavaScript truthiness of optional strings, as used by the source's
    `x || fallback` idiom: `undefined` and `""` are falsy, every other string
    is truthy. */
module JsString {
  import opened Wrappers

  /** True iff `x` is a present, non-empty string. */
  predicate Truthy(x: Option<string>) {
    x.Some? && x.value != ""
  }

  /** `x || fallback` on an optional string. */
  function Or(x: Option<string>, fallback: string): (r: string)
    ensures Truthy(x) ==> r == x.value
    ensures !Truthy(x) ==> r == fallback
    ensures fallback != "" ==> r != ""
  {
    if x.Some? && x.value != "" then x.value else fallback
  }
}
