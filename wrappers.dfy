/** Small value wrappers shared by the whole model. */
module Wrappers {

  /** A value that may be absent; `None` stands for JavaScript's `undefined`. */
  datatype Option<+T> = None | Some(value: T)

  /** The value of an operation that either succeeds or throws. */
  datatype Result<+T, +E> = Ok(value: T) | Err(error: E)

  /** The result of a statement that either completes or throws. */
  datatype Outcome<+E> = Pass | Fail(error: E)

  /** JavaScript truthiness of a possibly-undefined string. */
  predicate Truthy(s: Option<string>)
  {
    s.Some? && s.value != ""
  }

  /** `a || b` on possibly-undefined strings. */
  function Or(a: Option<string>, b: Option<string>): (r: Option<string>)
    ensures Truthy(a) ==> r == a
    ensures !Truthy(a) ==> r == b
  {
    if Truthy(a) then a else b
  }

  /** What a template literal `${v}` renders for a possibly-undefined string. */
  function Interpolated(v: Option<string>): string
  {
    match v
    case Some(s) => s
    case None => "undefined"
  }
}
