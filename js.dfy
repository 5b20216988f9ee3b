/** JavaScript value semantics that the request handling relies on:
    optional values, results, truthiness of optional strings and booleans,
    and the values a `throw` can carry. */
module Js {

  datatype Option<+T> = None | Some(value: T)

  datatype Result<+T, +E> = Success(value: T) | Failure(error: E)

  /** Truthiness of an optional string: an absent field (undefined or null)
      and the empty string are both falsy, every other string is truthy. */
  predicate Truthy(s: Option<string>)
  {
    s.Some? && s.value != ""
  }

  /** Truthiness of an optional boolean flag: only a present `true` is truthy. */
  predicate TruthyFlag(b: Option<bool>)
  {
    b == Some(true)
  }

  /** The expression `a || fallback` where `a` is an optional string and
      `fallback` a string literal: `a` itself when truthy, else the fallback. */
  function Or(a: Option<string>, fallback: string): (r: string)
    ensures Truthy(a) ==> r == a.value
    ensures !Truthy(a) ==> r == fallback
  {
    if Truthy(a) then a.value else fallback
  }

  /** An `Error` object; only its message is observable here. */
  datatype JsError = JsError(message: string)

  /** A thrown value: either an `Error` instance or anything else. */
  datatype Thrown = ThrownError(err: JsError) | ThrownOther
}
