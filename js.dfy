/**
 * The JSON values that arrive as webhook payloads and request bodies, with
 * the JavaScript operations the handlers apply to them: truthiness, property
 * access and string conversion inside a template literal.
 */
module Js {
  import Text

  /** A JSON value. Numbers are integral here (see README, "Left out"). */
  datatype Json =
    | Undefined
    | Null
    | Bool(b: bool)
    | Num(n: int)
    | Str(s: string)
    | Arr(items: seq<Json>)
    | Obj(fields: map<string, Json>)

  /** JavaScript truthiness: `false`, `0`, `""`, `null` and `undefined` are falsy. */
  predicate Truthy(v: Json)
  {
    match v
    case Undefined => false
    case Null => false
    case Bool(b) => b
    case Num(n) => n != 0
    case Str(s) => s != []
    case Arr(_) => true
    case Obj(_) => true
  }

  /** `v?.[key]`: a missing property, or any value that is not an object, gives `undefined`. */
  function Get(v: Json, key: string): (r: Json)
    ensures r != Undefined ==> v.Obj? && key in v.fields
  {
    if v.Obj? && key in v.fields then v.fields[key] else Undefined
  }

  /** `"" + v`: how a value is written into a template literal. */
  function ToString(v: Json): string
  {
    match v
    case Undefined => "undefined"
    case Null => "null"
    case Bool(b) => if b then "true" else "false"
    case Num(n) => Text.IntString(n)
    case Str(s) => s
    case Arr(items) =>
      // `null` and `undefined` elements are written as empty strings
      Join(seq(|items|, i requires 0 <= i < |items| =>
        if items[i].Null? || items[i].Undefined? then "" else ToString(items[i])))
    case Obj(_) => "[object Object]"
  }

  /** `Array.prototype.join(",")` over strings. */
  function Join(parts: seq<string>): string
  {
    if parts == [] then ""
    else if |parts| == 1 then parts[0]
    else parts[0] + "," + Join(parts[1..])
  }
}
