/**
 * The few JavaScript value semantics the main process relies on:
 * truthiness (`||`, `if (x)`), and the `ok` flag of a fetch response.
 */
module JsValues {

  /**
   * A JavaScript value as far as the token logic can tell them apart.
   * Numbers are integers here; `NaN` and fractions are not modelled.
   */
  datatype JsValue =
    | Undefined
    | Null
    | Bool(b: bool)
    | Num(n: int)
    | Str(s: string)
    | Obj  // any object or array: always truthy

  /** JavaScript truthiness: `false`, `0`, `""`, `null` and `undefined` are falsy. */
  predicate Truthy(v: JsValue) {
    match v
    case Undefined => false
    case Null => false
    case Bool(b) => b
    case Num(n) => n != 0
    case Str(s) => s != ""
    case Obj => true
  }

  /**
   * `a || fallback` for a string-valued field. Throughout the model an
   * absent string field is written as `""`: both are falsy, so `||`
   * treats them alike.
   */
  function OrElse(a: string, fallback: string): (r: string)
    ensures a != "" ==> r == a
    ensures a == "" ==> r == fallback
  {
    if a != "" then a else fallback
  }

  /** `a || fallback` for a number-valued field; an absent number is written `0`. */
  function OrElseNum(a: int, fallback: int): (r: int)
    ensures a != 0 ==> r == a
    ensures a == 0 ==> r == fallback
  {
    if a != 0 then a else fallback
  }

  /** `Response.ok` of the Fetch standard: the status is in the range 200 to 299. */
  predicate StatusOk(status: int) {
    200 <= status <= 299
  }

  /** `Math.floor(Date.now() / 1000)`: Dafny's `/` by a positive divisor is floor division. */
  function EpochSeconds(nowMs: int): (s: int)
    ensures s * 1000 <= nowMs < s * 1000 + 1000
  {
    nowMs / 1000
  }
}
