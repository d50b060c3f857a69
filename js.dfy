/** JavaScript values, errors and the few language rules (truthiness, property
    access, `||`, object spread) that the modelled code relies on. */
module Js {

  datatype Result<+T, +E> = Ok(value: T) | Err(error: E)

  /** The exceptions the modelled code can raise. */
  datatype JsError = TypeError | RangeError

  /** A JavaScript value as it appears in JSON-shaped data. Objects are
      plain objects without prototype properties; key order is not kept. */
  datatype Value =
    | Undefined
    | Null
    | Bool(b: bool)
    | Num(x: real)
    | Str(s: string)
    | Arr(items: seq<Value>)
    | Obj(props: map<string, Value>)

  /** ToBoolean: false, 0, "", null and undefined are falsy (NaN is not modelled). */
  predicate Truthy(v: Value)
  {
    match v
    case Undefined => false
    case Null => false
    case Bool(b) => b
    case Num(x) => x != 0.0
    case Str(s) => s != ""
    case Arr(_) => true
    case Obj(_) => true
  }

  /** Reading a missing own property of a plain object yields undefined. */
  function Get(m: map<string, Value>, key: string): Value
  {
    if key in m then m[key] else Undefined
  }

  /** `a || b`: the left operand when it is truthy, the right one otherwise. */
  function Or(a: Value, b: Value): Value
  {
    if Truthy(a) then a else b
  }

  /** `v.key` for a named (non-index) property: a TypeError on null and
      undefined, the `length` of arrays and strings, the own property of a
      plain object, and undefined for anything else. */
  function Member(v: Value, key: string): (r: Result<Value, JsError>)
    ensures r.Err? <==> v.Undefined? || v.Null?
    ensures r.Err? ==> r.error == TypeError
    ensures v.Obj? ==> r == Ok(Get(v.props, key))
  {
    match v
    case Undefined => Err(TypeError)
    case Null => Err(TypeError)
    case Obj(m) => Ok(Get(m, key))
    case Arr(xs) => if key == "length" then Ok(Num(|xs| as real)) else Ok(Undefined)
    case Str(s) => if key == "length" then Ok(Num(|s| as real)) else Ok(Undefined)
    case _ => Ok(Undefined)
  }

  /** The own properties that `...v` copies into an object literal:
      those of a plain object; nothing for null, undefined, booleans and
      numbers. */
  function Spread(v: Value): map<string, Value>
  {
    match v
    case Obj(props) => props
    case _ => map[]
  }
}
