/** Values as the JavaScript code sees them: a numeric field that may be null
    or undefined, and the two defaulting operators the code uses on them. */
module JsValues {

  /** `None` stands for JavaScript's null or undefined. */
  datatype Option<+T> = None | Some(value: T)

  /** JavaScript truthiness of a numeric field: null, undefined and 0 are falsy
      (NaN is not modelled). */
  predicate Truthy(x: Option<real>)
  {
    x.Some? && x.value != 0.0
  }

  /** `x || d` on a numeric field. */
  function OrElse(x: Option<real>, d: real): real
  {
    if Truthy(x) then x.value else d
  }

  /** `x ?? y`: only null and undefined fall through, 0 is kept. */
  function Coalesce<T>(x: Option<T>, y: Option<T>): Option<T>
  {
    if x.Some? then x else y
  }

  /** The assumptions object: absent keys are undefined. */
  type Assumptions = map<string, real>

  /** `assumptions.key || d`: an absent key and an explicit 0 both give `d`. */
  function Setting(a: Assumptions, key: string, d: real): real
  {
    if key in a && a[key] != 0.0 then a[key] else d
  }

  /** Destructuring default `{ key = d }`: only an undefined value gets `d`. */
  function Given(x: Option<real>, d: real): real
  {
    if x.Some? then x.value else d
  }
}
