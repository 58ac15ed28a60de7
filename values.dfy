/**
 * Values shared by every part of the model: optional values, the outcome of a
 * JavaScript call that may throw, and the loosely typed JSON scalars found in
 * configuration objects, query values and link data.
 */
module Values {

  datatype Option<+T> = None | Some(value: T)

  /** The outcome of JavaScript code that either completes or throws a TypeError. */
  datatype Outcome<+T> = Ok(value: T) | Thrown

  /**
   * A JSON scalar as the JavaScript code sees it. Numbers are modelled as
   * integers (no fractions, no NaN); `Undefined` stands for a property that is
   * not set.
   */
  datatype Json = Undefined | Null | Bool(b: bool) | Num(n: int) | Str(s: string)

  /** JavaScript truthiness of a scalar. */
  predicate Truthy(v: Json) {
    match v
    case Undefined => false
    case Null => false
    case Bool(b) => b
    case Num(n) => n != 0
    case Str(s) => s != ""
  }

  /** JavaScript `a || b`. */
  function Or(a: Json, b: Json): Json {
    if Truthy(a) then a else b
  }

  /** JavaScript `s || d` on a string property, where "" stands for both the empty and the missing string. */
  function OrStr(s: string, d: string): string {
    if s != "" then s else d
  }

  /** JavaScript `n || d` on a numeric property, where 0 stands for both zero and a missing number. */
  function OrNum(n: int, d: int): int {
    if n != 0 then n else d
  }
}
