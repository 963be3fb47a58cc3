/**
 * The slice of JavaScript's value model that the charts branch on: numbers
 * with their NaN and infinite outcomes, CSV row fields, option bags, strict
 * equality, truthiness and property access on undefined or null.
 *
 * String-to-number conversion (`parseFloat`, unary `+`) and the conversion of
 * a non-string property key to a string belong to the JavaScript engine; they
 * are parameters of the model, bundled in `Host`.
 */
module Js {

  datatype Option<+T> = None | Some(value: T)

  /** The exceptions the charts throw. */
  datatype Error =
    | NoSelector   // 'You need to specify a selector.'
    | NoPath       // 'You need to specify options: path'
    | TypeError    // a property read on undefined/null, or a call of a non-function

  datatype Result<+T> = Ok(value: T) | Err(error: Error)

  /** A JavaScript number, as far as the code looks at it (IEEE rounding is not modelled). */
  datatype Number = Finite(x: real) | PosInf | NegInf | NaN

  /** A field of a CSV row: the string d3 read, or the number a parser stored. */
  datatype Value = Str(s: string) | Num(n: Number)

  /** A data record; a key that is absent reads as `undefined`. */
  type Row = map<string, Value>

  /** A value inside an options object. `OFun` is a function value, such as the `filter` option. */
  datatype OptVal =
    | OStr(s: string)
    | ONum(n: Number)
    | OBool(b: bool)
    | ONull
    | OArr(items: seq<OptVal>)
    | OObj(fields: map<string, OptVal>)
    | OFun(call: Row -> bool)

  /** An options object: its own enumerable properties. */
  type Options = map<string, OptVal>

  /** A finite number literal in an options object. */
  function N(x: real): OptVal {
    ONum(Finite(x))
  }

  /** The engine's conversions that the model does not re-implement. */
  datatype Host = Host(
    parseFloat: string -> Number,     // the global parseFloat
    toNumber: string -> Number,       // unary + on a string
    keyString: OptVal -> string)      // ToString of a non-string value used as a property key

  /** `m[key]`, with `None` standing for `undefined`. */
  function Get<V>(m: map<string, V>, key: string): (r: Option<V>)
    ensures r.Some? <==> key in m
    ensures r.Some? ==> r.value == m[key]
  {
    if key in m then Some(m[key]) else None
  }

  predicate NumberTruthy(n: Number) {
    match n
    case Finite(x) => x != 0.0
    case NaN => false
    case _ => true
  }

  /** JavaScript truthiness of a row field (`undefined` is falsy). */
  predicate Truthy(v: Option<Value>) {
    match v
    case None => false
    case Some(Str(s)) => s != ""
    case Some(Num(n)) => NumberTruthy(n)
  }

  /** JavaScript truthiness of an option value (objects, arrays and functions are truthy). */
  predicate OptTruthy(v: Option<OptVal>) {
    match v
    case None => false
    case Some(OStr(s)) => s != ""
    case Some(ONum(n)) => NumberTruthy(n)
    case Some(OBool(b)) => b
    case Some(ONull) => false
    case Some(_) => true
  }

  /** `===` on two row fields: NaN equals nothing, `undefined` equals only `undefined`. */
  predicate StrictEquals(a: Option<Value>, b: Option<Value>) {
    match (a, b)
    case (None, None) => true
    case (Some(Str(s)), Some(Str(t))) => s == t
    case (Some(Num(m)), Some(Num(n))) => m == n && !m.NaN?
    case _ => false
  }

  /** A field that is not a NaN number is `===` to itself. */
  predicate NotNaN(v: Option<Value>) {
    v != Some(Num(NaN))
  }

  /** Unary `+` on a row field; `+undefined` is NaN. */
  function Plus(host: Host, v: Option<Value>): Number {
    match v
    case None => NaN
    case Some(Str(s)) => host.toNumber(s)
    case Some(Num(n)) => n
  }

  /**
   * `v[key]` for an option value `v`: undefined and null throw, an object
   * gives its own property, and primitives and arrays give undefined. The
   * last case is wrong for `length` and the index keys of an array or a
   * string; it is only read with the keys `A`..`D`, for which it is right.
   */
  function Property(v: Option<OptVal>, key: string): (r: Result<Option<OptVal>>)
    ensures r.Err? <==> v.None? || v == Some(ONull)
    ensures v.Some? && v.value.OObj? ==> r == Ok(Get(v.value.fields, key))
  {
    match v
    case None => Err(TypeError)
    case Some(ONull) => Err(TypeError)
    case Some(OObj(fields)) => Ok(Get(fields, key))
    case Some(_) => Ok(None)
  }

  /** The property name a value turns into when used as `d[value]`. */
  function PropertyKey(host: Host, v: Option<OptVal>): string {
    match v
    case None => "undefined"
    case Some(OStr(s)) => s
    case Some(o) => host.keyString(o)
  }

  /** The three field names a chart plots: x position, y position and bubble size. */
  datatype Accessors = Accessors(x: string, y: string, size: string)

  /** The accessors named by `options.xAccessor`, `options.yAccessor` and `options.sizeAccessor`. */
  function AccessorsOf(host: Host, options: Options): Accessors {
    Accessors(PropertyKey(host, Get(options, "xAccessor")),
              PropertyKey(host, Get(options, "yAccessor")),
              PropertyKey(host, Get(options, "sizeAccessor")))
  }
}
