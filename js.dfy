/**
 * The few JavaScript value semantics the harness relies on: the values a
 * plugin member, a connection field or a callback can hold, and truthiness
 * (the test behind `if (!x)`, `x || y` and `if (done)`).
 */
module Js {

  /** A JavaScript value. Objects are kept by their own properties; functions by an identity. */
  datatype Value =
    | Undefined
    | Null
    | Bool(b: bool)
    | Num(n: int)
    | Str(s: string)
    | Fn(id: nat)
    | Obj(props: map<string, Value>)

  /** The empty object literal `{}`. */
  const EmptyObject: Value := Obj(map[])

  /** JavaScript truthiness: `undefined`, `null`, `false`, `0` and `''` are falsy. */
  predicate Truthy(v: Value)
  {
    match v
    case Undefined => false
    case Null => false
    case Bool(b) => b
    case Num(n) => n != 0
    case Str(s) => s != ""
    case Fn(_) => true
    case Obj(_) => true
  }
}
