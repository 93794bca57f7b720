/** The JavaScript values the assistant driver inspects: JSON data as decoded
    by the HTTP client or by JSON.parse, plus `undefined` for a missing
    property.  Numbers are modelled as integers. */
module Js {

  datatype Option<T> = None | Some(value: T)

  datatype Json =
    | Null
    | Bool(b: bool)
    | Num(n: int)
    | Str(s: string)
    | Arr(items: seq<Json>)
    | Obj(fields: map<string, Json>)

  /** A value held by a JavaScript variable: `undefined` or a JSON value. */
  datatype Value = Undefined | Defined(json: Json)

  /** JavaScript truthiness: `!v` is false exactly when `Truthy(v)`.
      `undefined`, `null`, `false`, `0` and `""` are falsy; every object and
      array, even an empty one, is truthy. */
  predicate Truthy(v: Value)
    ensures Truthy(v) ==> v.Defined? && !v.json.Null?
  {
    match v
    case Undefined => false
    case Defined(j) =>
      match j
      case Null => false
      case Bool(b) => b
      case Num(n) => n != 0
      case Str(s) => s != ""
      case Arr(_) => true
      case Obj(_) => true
  }

  /** The property read `v.key`.  JavaScript throws on `undefined` and `null`.
      For the keys the driver reads (`id`, `response`, `thread_info`) any
      other value yields `undefined` unless it is an object that has `key`;
      keys such as `length` on strings and arrays, or those inherited from
      `Object.prototype`, are not modelled. */
  function Property(v: Value, key: string): (r: Value)
    requires v.Defined? && !v.json.Null?
    ensures r.Defined? <==> v.json.Obj? && key in v.json.fields
    ensures r.Defined? ==> r.json == v.json.fields[key]
  {
    if v.json.Obj? && key in v.json.fields then Defined(v.json.fields[key]) else Undefined
  }
}
