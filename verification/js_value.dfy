/**
 * JSON-like JavaScript values as they reach the request handlers, with the
 * few JavaScript operators the handlers apply to them. Numbers are only
 * type-checked and echoed, so an integer stands for any finite number and
 * `NaN` has its own constructor.
 */
module JsValue {
  import opened JsString

  datatype Json =
    | Undef
    | Null
    | Bool(b: bool)
    | Num(n: int)
    | NaN
    | Str(s: string)
    | Arr(elems: seq<Json>)
    | Obj(props: map<string, Json>)

  /** The request body after `express.json()`: an object from keys to values. */
  type Body = map<string, Json>

  /** JavaScript `typeof`. */
  function TypeOf(v: Json): (t: string)
    ensures t == "object" <==> v.Null? || v.Arr? || v.Obj?
    ensures t == "number" <==> v.Num? || v.NaN?
    ensures t == "undefined" <==> v.Undef?
  {
    match v
    case Undef => "undefined"
    case Null => "object"
    case Bool(_) => "boolean"
    case Num(_) => "number"
    case NaN => "number"
    case Str(_) => "string"
    case Arr(_) => "object"
    case Obj(_) => "object"
  }

  /** JavaScript truthiness (`if (v)`, `!v`). */
  predicate Truthy(v: Json): (b: bool)
    ensures v.Arr? || v.Obj? ==> b
    ensures v.Undef? || v.Null? || v.NaN? ==> !b
  {
    match v
    case Undef => false
    case Null => false
    case Bool(b) => b
    case Num(n) => n != 0
    case NaN => false
    case Str(s) => s != ""
    case Arr(_) => true
    case Obj(_) => true
  }

  /** Property read `v[key]` with a non-index key: `undefined` unless `v` is an
      object that has the key. */
  function Get(v: Json, key: string): Json
  {
    if v.Obj? && key in v.props then v.props[key] else Undef
  }

  /** Property read on the request body (destructuring `const { key } = req.body`). */
  function Field(body: Body, key: string): Json
  {
    if key in body then body[key] else Undef
  }

  /** Element `k` of an array of strings as JavaScript reads it: `undefined`
      past the end. */
  function At(parts: seq<string>, k: nat): Json
  {
    if k < |parts| then Str(parts[k]) else Undef
  }

  /** A string value that begins with `sensor:`. */
  predicate IsSensorTag(v: Json)
  {
    v.Str? && StartsWith(v.s, "sensor:")
  }
}
