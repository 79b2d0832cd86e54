/**
 * JavaScript values as they travel through JSON bodies, with the three
 * operations the routes and components apply to them: truthiness,
 * `a || b` and the optional property read `v?.key`.
 */
module Json {

  /** A JavaScript value received from or sent as JSON (`Undefined` stands for an absent property). */
  datatype JsValue =
    | Undefined
    | Null
    | Bool(b: bool)
    | Num(n: real)
    | Str(s: string)
    | Arr(items: seq<JsValue>)
    | Obj(fields: map<string, JsValue>)

  /** JavaScript truthiness: `undefined`, `null`, `false`, `0` and `""` are falsy. */
  predicate Truthy(v: JsValue)
  {
    match v
    case Undefined => false
    case Null => false
    case Bool(b) => b
    case Num(n) => n != 0.0
    case Str(s) => s != ""
    case Arr(_) => true
    case Obj(_) => true
  }

  /** JavaScript's logical or: the left operand when it is truthy, the right one otherwise. */
  function Or(a: JsValue, b: JsValue): (r: JsValue)
    ensures Truthy(a) ==> r == a
    ensures !Truthy(a) ==> r == b
  {
    if Truthy(a) then a else b
  }

  /** `v?.key`: the property when `v` is an object holding it, `undefined` otherwise. */
  function Get(v: JsValue, key: string): (r: JsValue)
    ensures !v.Obj? ==> r == Undefined
  {
    if v.Obj? && key in v.fields then v.fields[key] else Undefined
  }

  /** An object literal with no properties: `{}`. */
  const EmptyObject: JsValue := Obj(map[])
}
