/** The slice of JavaScript value semantics the core's guards depend on:
    JSON values as a request body delivers them, truthiness, `typeof`, property
    access, and the conversions `ToNumber`/`ToString` behind `<=`, `*`,
    `isNaN` and template strings. Number parsing and number printing are done
    by the engine and are given as the parameters of `Engine`. */
module Js {
  import opened Options
  import opened Strings

  /** A JSON value as Express's JSON body parser delivers it, plus `Undefined`
      for a property that is absent. */
  datatype JsValue =
    | Undefined
    | Null
    | Bool(b: bool)
    | Num(n: real)
    | Str(s: string)
    | Arr(elems: seq<JsValue>)
    | Obj(props: map<string, JsValue>)

  /** A number the core's arithmetic can produce: finite, or NaN. */
  datatype Number = Real(r: real) | NaN

  /** What the engine decides on its own: `StringToNumber` (NaN for a string
      that is not numeric), `Number::toString`, `parseInt` on a string (None for
      NaN), and the message of the TypeError thrown when a property of `null` or
      `undefined` is read or destructured. */
  datatype Engine = Engine(
    stringToNumber: string -> Number,
    numberToString: real -> string,
    parseInt: string -> Option<int>,
    nullAccess: string)

  /** JavaScript truthiness: `undefined`, `null`, `false`, `0` and `""` are falsy. */
  predicate Truthy(v: JsValue) {
    match v
    case Undefined => false
    case Null => false
    case Bool(b) => b
    case Num(n) => n != 0.0
    case Str(s) => s != ""
    case Arr(_) => true
    case Obj(_) => true
  }

  /** `typeof v`. */
  function TypeOf(v: JsValue): string {
    match v
    case Undefined => "undefined"
    case Bool(_) => "boolean"
    case Num(_) => "number"
    case Str(_) => "string"
    case _ => "object"
  }

  /** `typeof v === 'number'`. */
  predicate IsNumber(v: JsValue)
    ensures IsNumber(v) <==> TypeOf(v) == "number"
  {
    assert TypeOf(v) == "number" ==> v.Num? by {
      if !v.Num? {
        assert TypeOf(v)[0] != 'n';
      }
    }
    v.Num?
  }

  /** `v[key]` for a property that is neither `length` nor an array index:
      an object's own property, `undefined` on every other value. */
  function Get(v: JsValue, key: string): JsValue {
    if v.Obj? && key in v.props then v.props[key] else Undefined
  }

  /** `String(v)`, as a template string renders it. */
  function ToString(v: JsValue, eng: Engine): string {
    match v
    case Undefined => "undefined"
    case Null => "null"
    case Bool(b) => if b then "true" else "false"
    case Num(n) => eng.numberToString(n)
    case Str(s) => s
    case Arr(elems) => Join(ElementStrings(elems, eng), ",")
    case Obj(_) => "[object Object]"
  }

  /** The strings `Array.prototype.join` puts between the commas: empty for
      `null` and `undefined` elements. */
  function ElementStrings(elems: seq<JsValue>, eng: Engine): (r: seq<string>)
    ensures |r| == |elems|
    decreases elems
  {
    if |elems| == 0 then []
    else
      var first := if elems[0].Null? || elems[0].Undefined? then "" else ToString(elems[0], eng);
      [first] + ElementStrings(elems[1..], eng)
  }

  /** `Number(v)`: an array or object goes through its string form. */
  function ToNumber(v: JsValue, eng: Engine): Number {
    match v
    case Undefined => NaN
    case Null => Real(0.0)
    case Bool(b) => Real(if b then 1.0 else 0.0)
    case Num(n) => Real(n)
    case Str(s) => eng.stringToNumber(s)
    case _ => eng.stringToNumber(ToString(v, eng))
  }

  /** The global `parseInt(v)`: the engine parses the string form of `v`. */
  function ParseInt(v: JsValue, eng: Engine): Option<int> {
    eng.parseInt(ToString(v, eng))
  }

  /** The global `isNaN(v)`. */
  predicate IsNaN(v: JsValue, eng: Engine) {
    ToNumber(v, eng).NaN?
  }

  /** `v <= 0`: a numeric comparison, false when `v` converts to NaN. */
  predicate AtMostZero(v: JsValue, eng: Engine) {
    match ToNumber(v, eng)
    case NaN => false
    case Real(x) => x <= 0.0
  }

  /** `a * b` on numbers. */
  function Mul(a: Number, b: Number): Number {
    if a.Real? && b.Real? then Real(a.r * b.r) else NaN
  }

  /** `a + b` on numbers. */
  function Add(a: Number, b: Number): Number {
    if a.Real? && b.Real? then Real(a.r + b.r) else NaN
  }
}
