/** The JavaScript values the client handles: parsed JSON plus `undefined`,
    with JavaScript's truthiness and the `||` operator built on it. */
module JsValue {
  import opened Wrappers

  /** A JavaScript value as produced by `JSON.parse`, extended with `undefined`
      (the value of a missing property). Numbers are exact reals: the rounding
      of `JSON.parse` to doubles (overflow to `Infinity`, underflow to `0`)
      is not modelled. */
  datatype Value =
    | Undefined
    | Null
    | Bool(b: bool)
    | Number(n: real)
    | Str(s: string)
    | Array(elems: seq<Value>)
    | Object(props: map<string, Value>)

  /** JavaScript's ToBoolean: `undefined`, `null`, `false`, `0`, `-0` and `""`
      are falsy; every array and object, even an empty one, is truthy. */
  predicate Truthy(v: Value) {
    match v
    case Undefined => false
    case Null => false
    case Bool(b) => b
    case Number(n) => n != 0.0
    case Str(s) => s != ""
    case Array(_) => true
    case Object(_) => true
  }

  /** `undefined` or `null`: reading any property of these throws a TypeError. */
  predicate Nullish(v: Value) {
    v.Undefined? || v.Null?
  }

  /** JavaScript's `a || b`: `a` when it is truthy, otherwise `b`. */
  function Or(a: Value, b: Value): (r: Value)
    ensures Truthy(a) ==> r == a
    ensures !Truthy(a) ==> r == b
  {
    if Truthy(a) then a else b
  }

  /** Why a TypeError was thrown. */
  datatype Cause =
    | NotAFunction(name: string)     // calling a property that holds no function
    | ReadOfNullish(property: string) // reading a property of `undefined` or `null`

  /** Reading the `items` property of `v`, as `e.items` does. An object yields
      its own `items` entry or `undefined`; other non-nullish values have no
      property of that name; `undefined` and `null` throw. */
  function ItemsOf(v: Value): (r: Result<Value, Cause>)
    ensures r.Err? <==> Nullish(v)
    ensures r.Ok? && v.Object? && "items" in v.props ==> r.value == v.props["items"]
    ensures r.Ok? && !(v.Object? && "items" in v.props) ==> r.value == Undefined
  {
    match v
    case Undefined => Err(ReadOfNullish("items"))
    case Null => Err(ReadOfNullish("items"))
    case Object(props) => Ok(if "items" in props then props["items"] else Undefined)
    case _ => Ok(Undefined)
  }
}
