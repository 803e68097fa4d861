/** JavaScript's defaulting operators on nullable values, as both source files
    use them. A number is `None` when null or undefined; NaN is not modelled. */
module JsValues {
  import opened Wrappers

  /** Truthiness of a nullable number: null, undefined and 0 are falsy. */
  predicate Truthy(x: Option<real>) {
    x.Some? && x.value != 0.0
  }

  /** `x || d` for a nullable number and a number default. */
  function Or(x: Option<real>, d: real): real {
    if Truthy(x) then x.value else d
  }

  /** `x || null`: a falsy number becomes null. */
  function OrNull(x: Option<real>): Option<real> {
    if Truthy(x) then x else None
  }

  /** `x ?? y`: only null and undefined fall through. */
  function Coalesce<T>(x: Option<T>, y: Option<T>): Option<T> {
    if x.Some? then x else y
  }

  /** `Math.abs` on a number. */
  function Abs(x: real): real {
    if x < 0.0 then -x else x
  }

  /** `s || d` for a nullable string: null, undefined and "" are falsy. */
  function OrText(s: Option<string>, d: string): string {
    if s.Some? && s.value != "" then s.value else d
  }
}
