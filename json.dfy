// Untyped values as the frontend (JavaScript) and the backend (Python) pass
// them around: node configs, patches, result payloads and request bodies.
module Json {
  import opened Base

  /** A JSON-like value. `Undefined` is JavaScript's `undefined`, which is also
      what a missing property reads as; on the Python side it plays the role of
      the `None` that `dict.get` returns for a missing key. */
  datatype Value =
    | Undefined
    | Null
    | Bool(b: bool)
    | Num(n: real)
    | Str(s: string)
    | Arr(items: seq<Value>)
    | Obj(fields: map<string, Value>)

  /** A plain object: property name to value. */
  type Object = map<string, Value>

  /** `o.key` in JavaScript, `o.get(key)` in Python. */
  function Get(o: Object, key: string): Value {
    if key in o then o[key] else Undefined
  }

  /** Python's `o.get(key, default)`: the default only replaces a missing key. */
  function GetOr(o: Object, key: string, default: Value): Value {
    if key in o then o[key] else default
  }

  /** `v?.key`: a property of an object, `undefined` for anything else. */
  function Prop(v: Value, key: string): Value {
    match v
    case Obj(m) => Get(m, key)
    case _ => Undefined
  }

  /** `v?.length`. */
  function LengthProp(v: Value): Value {
    match v
    case Arr(items) => Num(|items| as real)
    case Str(s) => Num(|s| as real)
    case Obj(m) => Get(m, "length")
    case _ => Undefined
  }

  /** JavaScript truthiness (NaN is not modelled): empty arrays and objects are truthy. */
  predicate JsTruthy(v: Value) {
    match v
    case Undefined => false
    case Null => false
    case Bool(b) => b
    case Num(n) => n != 0.0
    case Str(s) => s != ""
    case _ => true
  }

  /** Python truthiness: empty lists and dicts are falsy. */
  predicate PyTruthy(v: Value) {
    match v
    case Undefined => false
    case Null => false
    case Bool(b) => b
    case Num(n) => n != 0.0
    case Str(s) => s != ""
    case Arr(items) => items != []
    case Obj(m) => m != map[]
  }

  /** JavaScript's `v ?? d`: only `null` and `undefined` fall back. */
  function Coalesce(v: Value, d: Value): (r: Value)
    ensures v != Undefined && v != Null ==> r == v
    ensures (v == Undefined || v == Null) ==> r == d
  {
    if v.Undefined? || v.Null? then d else v
  }

  /** JavaScript's `a || b` and Python's `a or b` agree on values that are
      truthy in both languages; each side below uses its own predicate. */
  function JsOr(a: Value, b: Value): (r: Value)
    ensures JsTruthy(a) ==> r == a
    ensures !JsTruthy(a) ==> r == b
  {
    if JsTruthy(a) then a else b
  }

  function PyOr(a: Value, b: Value): (r: Value)
    ensures PyTruthy(a) ==> r == a
    ensures !PyTruthy(a) ==> r == b
  {
    if PyTruthy(a) then a else b
  }

  /** Strings as a list of JSON values. */
  function Strs(ss: seq<string>): (r: seq<Value>)
    ensures |r| == |ss|
    ensures forall i :: 0 <= i < |ss| ==> r[i] == Str(ss[i])
  {
    if ss == [] then [] else [Str(ss[0])] + Strs(ss[1..])
  }
}
