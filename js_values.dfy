/**
 * The JavaScript values the form state, provider responses and stored records are made of.
 * Objects are maps from property names to values; numbers are exact rationals.
 */
module JsValues {
  import opened Wrappers

  datatype Value =
    | Undefined
    | Null
    | Bool(b: bool)
    | Num(x: real)
    | Str(s: string)
    | Arr(items: seq<Value>)
    | Obj(props: map<string, Value>)

  /** JavaScript truthiness: `undefined`, `null`, `false`, `0` and `""` are falsy, everything else is truthy. */
  predicate Truthy(v: Value) {
    match v
    case Undefined => false
    case Null => false
    case Bool(b) => b
    case Num(x) => x != 0.0
    case Str(s) => s != ""
    case Arr(_) => true
    case Obj(_) => true
  }

  /** `o[k]` on a plain object: a property that is not there reads as `undefined`. */
  function Prop(m: map<string, Value>, k: string): Value {
    if k in m then m[k] else Undefined
  }

  /**
   * `v[k]` as the model reads it: `None` when JavaScript throws a TypeError (reading a
   * property of `undefined` or `null`), the property of an object, and `undefined` for every
   * other value. JavaScript itself gives strings and arrays their index properties and
   * `length` (`"ab"[0]` is `"a"`, `[x][0]` is `x`); the model does not, which matters only
   * for a dotted path that passes through a string or an array.
   */
  function Get(v: Value, k: string): (r: Option<Value>)
    ensures r.None? <==> v.Undefined? || v.Null?
    ensures v.Obj? ==> r == Some(Prop(v.props, k))
  {
    match v
    case Undefined => None
    case Null => None
    case Obj(m) => Some(Prop(m, k))
    case _ => Some(Undefined)
  }

  /**
   * The own properties `{...v}` copies: those of an object, none for `undefined`, `null`,
   * booleans and numbers. (A string or an array would contribute its index properties; the
   * model gives them none.)
   */
  function Spread(v: Value): map<string, Value> {
    if v.Obj? then v.props else map[]
  }
}
