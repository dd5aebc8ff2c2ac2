/** The few JavaScript runtime notions the wrappers rely on: dynamically typed
    values, `typeof`, truthiness, `in` and property access. */
module JsValues {

  import opened Wrappers

  /** A JavaScript value. Objects carry their visible properties (own and
      inherited); functions, symbols, NaN and BigInt are not modelled. */
  datatype JsValue =
    | Undefined
    | Null
    | Bool(b: bool)
    | Num(n: real)
    | Str(s: string)
    | Obj(fields: map<string, JsValue>)
    | Arr(items: seq<JsValue>)

  /** An attribute bag such as a RUM or log `context`. */
  type Context = map<string, JsValue>

  /** The `typeof` operator; note that `typeof null` is "object". */
  function TypeOf(v: JsValue): (r: string)
    ensures r == "object" <==> v.Null? || v.Obj? || v.Arr?
    ensures r == "undefined" <==> v.Undefined?
    ensures r == "string" <==> v.Str?
  {
    match v
    case Undefined => "undefined"
    case Null => "object"
    case Bool(_) => "boolean"
    case Num(_) => "number"
    case Str(_) => "string"
    case Obj(_) => "object"
    case Arr(_) => "object"
  }

  /** JavaScript truthiness, as used by `if (x)`, `x ? a : b`, `x || y` and `x && y`. */
  predicate Truthy(v: JsValue) {
    match v
    case Undefined => false
    case Null => false
    case Bool(b) => b
    case Num(n) => n != 0.0
    case Str(s) => s != ""
    case Obj(_) => true
    case Arr(_) => true
  }

  /** `args[i]` of a rest-parameter array: `undefined` past its end. */
  function Arg(args: seq<JsValue>, i: nat): JsValue {
    if i < |args| then args[i] else Undefined
  }

  /** The `name in v` test on an object value. */
  predicate Has(v: JsValue, name: string)
    requires v.Obj? || v.Arr?
  {
    v.Obj? && name in v.fields
  }

  /** Property access `v.name` on a non-nullish value. */
  function Get(v: JsValue, name: string): JsValue {
    if v.Obj? && name in v.fields then v.fields[name] else Undefined
  }

  /** `v == null` (loose equality): true for both null and undefined. */
  predicate IsNullish(v: JsValue) {
    v.Null? || v.Undefined?
  }

  /** A value that TypeScript typing declares as `string | undefined`. */
  predicate IsOptString(v: JsValue) {
    v.Str? || v.Undefined?
  }

  /** A value that TypeScript typing declares as `number | undefined`. */
  predicate IsOptNumber(v: JsValue) {
    v.Num? || v.Undefined?
  }

  /** Converts a `string | undefined` argument to an option. */
  function OptString(v: JsValue): (r: Option<string>)
    ensures r.Some? <==> v.Str?
  {
    if v.Str? then Some(v.s) else None
  }
}
