/** JavaScript values as the relay sees them after `JSON.parse`, and the small
    part of JavaScript's semantics it relies on: truthiness, the `||` operator,
    `undefined` for a missing property, and thrown errors. */
module Js {

  /** `Some(v)` is a defined value; `None` stands for `undefined`. */
  datatype Option<+T> = None | Some(value: T)

  /** How a JavaScript evaluation ends: with a value, or by throwing an error
      whose `message` is carried along. */
  datatype Completion<+T> = Normal(value: T) | Abrupt(message: string)

  /** A value `JSON.parse` can produce, with numbers as exact reals. A
      numeral too large for a double (`1e400`), which `JSON.parse` reads as
      an infinity, and a string holding a lone UTF-16 surrogate have no
      counterpart here. `-0` is represented by `0.0`, which is falsy like it. */
  datatype Json =
    | JNull
    | JBool(b: bool)
    | JNumber(n: real)
    | JString(s: string)
    | JArray(items: seq<Json>)
    | JObject(fields: map<string, Json>)

  /** ToBoolean (section 7.1.2 of ECMA-262) on JSON values. */
  predicate Truthy(v: Json) {
    match v
    case JNull => false
    case JBool(b) => b
    case JNumber(n) => n != 0.0
    case JString(s) => s != ""
    case JArray(_) => true
    case JObject(_) => true
  }

  /** `a || b` where `a` may be `undefined`: the left operand when it is
      truthy, the right one otherwise. */
  function Or(a: Option<Json>, b: Json): Json {
    if a.Some? && Truthy(a.value) then a.value else b
  }

  function Lift(a: Option<string>): Option<Json> {
    match a
    case None => None
    case Some(s) => Some(JString(s))
  }

  /** `a || b` on an optional string, as used on `process.env` entries and
      request headers: `undefined` and the empty string give way to `b`. */
  function StringOr(a: Option<string>, b: string): (r: string)
    ensures Or(Lift(a), JString(b)) == JString(r)
    ensures b != "" ==> r != ""
    ensures r == b || Some(r) == a
  {
    if a.Some? && a.value != "" then a.value else b
  }

  /** The member `key` of a JSON object, `None` when absent or not an object. */
  function Field(j: Json, key: string): Option<Json> {
    if j.JObject? && key in j.fields then Some(j.fields[key]) else None
  }
}
