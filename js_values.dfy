/** The few JavaScript value notions the agent's rewriting logic relies on.
    A string-valued slot that may hold any falsy value (undefined, null, false, "")
    is modelled as a `string`, with "" standing for every falsy value. */
module Js {

  datatype Option<+T> = None | Some(value: T)

  datatype Result<+T, +E> = Ok(value: T) | Failure(error: E)

  /** The exceptions the source can raise while rewriting. */
  datatype JsError =
    | TypeError(message: string)

  /** JavaScript truthiness of a string-valued slot. */
  predicate Truthy(s: string) {
    s != ""
  }

  /** JavaScript `a || b` on string-valued operands: the first truthy operand, else `b`. */
  function Or(a: string, b: string): (r: string)
    ensures r == a || r == b
    ensures Truthy(r) <==> Truthy(a) || Truthy(b)
    ensures Truthy(a) ==> r == a
  {
    if Truthy(a) then a else b
  }
}
