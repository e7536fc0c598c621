/**
 * JavaScript values as the handlers see them in a parsed request body, a
 * route slug or a query parameter, and JavaScript truthiness.
 */
module JsValues {

  /** A JavaScript value, kept to the distinctions the handlers test with `typeof` and truthiness. */
  datatype Input =
    | Undefined
    | Null
    | Bool(b: bool)
    | Num(n: real)      // a finite number
    | NaN
    | Str(s: string)
    | Array(length: nat)
    | Object

  /** The JavaScript `false` that `validate` returns for a rejected input. */
  const False: Input := Bool(false)

  /** JavaScript truthiness (`if (v)`, `!v`). */
  predicate Truthy(v: Input) {
    match v
    case Undefined | Null | NaN => false
    case Bool(b) => b
    case Num(n) => n != 0.0
    case Str(s) => s != ""
    case Array(_) | Object => true
  }

  /** What `createRandomString` returns: a string, or `false` when the length it is given is not a positive number. */
  type IdValue = v: Input | v.Str? || v == False witness False

  /** `String(id)`, as a generated id is written into a store key or a cookie. */
  function KeyText(id: IdValue): string {
    if id.Str? then id.s else "false"
  }
}
