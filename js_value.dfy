/**
  The JavaScript values that the draw and style descriptors are built from.
  A descriptor is a plain object; its leaves are literals, the missing value
  (null or undefined) and dynamic values: closures of zoom level or feature
  that the engine carries along without ever calling them.
 */
module JsValue {

  datatype Value =
    | Nil                              // null or undefined
    | Bool(b: bool)
    | Num(x: real)
    | Str(s: string)
    | Dyn(closure: nat)                // an unevaluated zoom- or feature-dependent closure
    | Obj(fields: map<string, Value>)  // a plain object, own enumerable properties only

  /** JavaScript truthiness: false, 0, the empty string, null and undefined are falsy. */
  predicate Truthy(v: Value)
  {
    match v
    case Nil => false
    case Bool(b) => b
    case Num(x) => x != 0.0
    case Str(s) => s != ""
    case Dyn(_) => true
    case Obj(_) => true
  }

  /** The JavaScript expression `a || b`: `a` when it is truthy, `b` otherwise. */
  function Or(a: Value, b: Value): (r: Value)
    ensures Truthy(a) ==> r == a
    ensures !Truthy(a) ==> r == b
    ensures Truthy(r) <==> Truthy(a) || Truthy(b)
  {
    if Truthy(a) then a else b
  }
}
