/**
 * The loosely typed JavaScript values that a configuration parsed from JSON
 * or XML can hold, with the three operations the fetch script applies to
 * them: truthiness, property read, and `Object.values`.
 */
module JsValue {

  /** A JavaScript number. Only whether it is truthy is ever inspected. */
  datatype Number = Finite(r: real) | Infinity(negative: bool) | NaN

  /**
   * An object lists its own enumerable properties in enumeration order.
   * Arrays and primitives are modelled without named properties: the
   * script only reads `city`, `$` and `name`, which they do not have.
   */
  datatype Value =
    | Undefined
    | Null
    | Bool(b: bool)
    | Num(n: Number)
    | Str(s: string)
    | Arr(items: seq<Value>)
    | Obj(props: seq<(string, Value)>)

  /** JavaScript's truthiness: `undefined`, `null`, `false`, `0`, `NaN` and `""` are falsy. */
  predicate Truthy(v: Value) {
    match v
    case Undefined => false
    case Null => false
    case Bool(b) => b
    case Num(n) => !(n.NaN? || n == Finite(0.0))
    case Str(s) => s != ""
    case Arr(_) => true
    case Obj(_) => true
  }

  /** Reading any property of these throws a TypeError. */
  predicate IsNullish(v: Value) {
    v.Undefined? || v.Null?
  }

  /** `typeof v === "object"`, which holds for `null` as well. */
  predicate TypeofObject(v: Value) {
    v.Null? || v.Arr? || v.Obj?
  }

  /** The value of the first property named `key`, `undefined` if there is none. */
  function Lookup(props: seq<(string, Value)>, key: string): (r: Value)
    ensures (forall p | p in props :: p.0 != key) ==> r == Undefined
    ensures (exists p | p in props :: p.0 == key) ==> (key, r) in props
  {
    if props == [] then Undefined
    else if props[0].0 == key then props[0].1
    else Lookup(props[1..], key)
  }

  /** The property read `v.key`; the caller has ruled out a nullish `v`, for which it throws. */
  function Get(v: Value, key: string): Value
    requires !IsNullish(v)
  {
    if v.Obj? then Lookup(v.props, key) else Undefined
  }

  /** `Object.values(o)`: the property values in enumeration order. */
  function ObjectValues(props: seq<(string, Value)>): (vs: seq<Value>)
    ensures |vs| == |props|
    ensures forall i | 0 <= i < |props| :: vs[i] == props[i].1
  {
    if props == [] then [] else [props[0].1] + ObjectValues(props[1..])
  }
}
