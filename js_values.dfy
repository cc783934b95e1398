/** The JavaScript values that flow through the error filter: exception
    payloads, the `errors` and `message` properties read from them, and the
    envelope written back. */
module JsValues {

  /** A JavaScript value. Numbers are integers: NaN and fractions never occur
      in the payloads this model handles. */
  datatype Value =
    | Undefined
    | Null
    | Bool(b: bool)
    | Num(n: int)
    | Str(s: string)
    | Arr(items: seq<Value>)
    | Obj(fields: map<string, Value>)

  /** JavaScript truthiness: `undefined`, `null`, `false`, `0` and `""` are
      falsy; every array and every object is truthy. */
  predicate Truthy(v: Value) {
    match v
    case Undefined => false
    case Null => false
    case Bool(b) => b
    case Num(n) => n != 0
    case Str(s) => s != ""
    case Arr(_) => true
    case Obj(_) => true
  }

  /** `a || b`: the left operand when it is truthy, the right one otherwise. */
  function Or(a: Value, b: Value): Value {
    if Truthy(a) then a else b
  }

  /** `v[key]` on a value that is neither `null` nor `undefined` (reading a
      property of those throws). Only object properties are modelled: the
      built-in properties of strings, numbers and arrays are never read here. */
  function Property(v: Value, key: string): Value
    requires !v.Null? && !v.Undefined?
  {
    if v.Obj? && key in v.fields then v.fields[key] else Undefined
  }
}
