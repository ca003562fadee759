/** JavaScript values as the portfolio's handlers see them: optional
    strings (a missing property is `undefined`), JavaScript truthiness
    of those, and the values a `catch` clause can receive. */
module JsValues {

  datatype Option<+T> = None | Some(value: T)

  /** What a `throw` delivers to a `catch`: an instance of `Error`
      (which has a `message`) or any other value. */
  datatype Thrown = ErrorInstance(message: string) | OtherValue

  /** `!!v` for a property that is a string or missing: only `undefined`
      and the empty string are falsy. No trimming takes place. */
  predicate Truthy(v: Option<string>)
  {
    v.Some? && v.value != ""
  }

  /** `v || fallback` for such a property. */
  function OrElse(v: Option<string>, fallback: string): (r: string)
    ensures Truthy(v) ==> r == v.value
    ensures !Truthy(v) ==> r == fallback
  {
    if Truthy(v) then v.value else fallback
  }

  /** The text a `catch` clause reports: `error instanceof Error ?
      error.message : fallback`. */
  function CaughtText(e: Thrown, fallback: string): (r: string)
    ensures e.ErrorInstance? ==> r == e.message
    ensures e.OtherValue? ==> r == fallback
  {
    match e
    case ErrorInstance(m) => m
    case OtherValue => fallback
  }
}
