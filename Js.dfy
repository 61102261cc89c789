/**
 * The JavaScript semantics the client relies on: JSON values as `JSON.parse`
 * produces them, truthiness, the `||` operator, property reads with and without
 * optional chaining, and the ways an async call of the client can fail.
 */
module Js {

  datatype Option<+T> = None | Some(value: T) {
    function GetOr(default: T): T {
      match this
      case Some(v) => v
      case None => default
    }
  }

  /** A JSON value. Numbers are kept as reals (JavaScript numbers are doubles). */
  datatype Json =
    | JNull
    | JBool(b: bool)
    | JNum(n: real)
    | JStr(s: string)
    | JArr(items: seq<Json>)
    | JObj(fields: map<string, Json>)

  /** `JSON.parse`: `None` when it throws. The model does not implement it. */
  type Parser = string -> Option<Json>

  /** ECMAScript ToBoolean on the values a JSON document can hold. */
  predicate Truthy(v: Json) {
    match v
    case JNull => false
    case JBool(b) => b
    case JNum(n) => n != 0.0
    case JStr(s) => s != ""
    case JArr(_) => true
    case JObj(_) => true
  }

  /**
   * `v?.key` (and `v.key` on a value that is not null): the property when `v`
   * is an object that has it, `undefined` (None) otherwise. Strings, numbers,
   * booleans and arrays carry none of the keys the client reads.
   */
  function Member(v: Json, key: string): Option<Json> {
    if v.JObj? && key in v.fields then Some(v.fields[key]) else None
  }

  /** `a || b` where `a` may be `undefined`: the first operand if it is truthy, else the second. */
  function Or(a: Option<Json>, b: Json): Json {
    if a.Some? && Truthy(a.value) then a.value else b
  }

  /** `s || fallback` on strings. */
  function OrText(s: string, fallback: string): string {
    if s != "" then s else fallback
  }

  /** The position of the first `c` in `s`, or `|s|` when there is none (`indexOf` gives -1 there). */
  function FirstIndex(s: string, c: char): (k: nat)
    ensures k <= |s|
    ensures forall i :: 0 <= i < k ==> s[i] != c
    ensures k < |s| ==> s[k] == c
    decreases |s|
  {
    if s == [] then 0 else if s[0] == c then 0 else 1 + FirstIndex(s[1..], c)
  }

  /** How a call of the client can fail. */
  datatype Error =
    | Thrown(message: Json)  // `throw new Error(message)` in the client's own code: the argument, before `String()`
    | SyntaxError            // a JSON parse failure that nothing catches
    | TypeError              // a property read on `null`
    | StoreError             // the secure store rejected a write

  datatype Result<+T> = Ok(value: T) | Err(error: Error)
}
