/**
 * JavaScript values as the socket client, its encoders and its envelopers see them:
 * truthiness, property reads and writes, own-property tests and the conversion of a
 * value to a property name.  Numbers are integers here (see README, "Left out").
 */
module JsValues {

  /** A JavaScript value; an object is the map of its own enumerable properties. */
  datatype Value =
    | Undefined
    | Null
    | Bool(b: bool)
    | Num(n: int)
    | NaN
    | Str(s: string)
    | Arr(items: seq<Value>)
    | Obj(props: map<string, Value>)
    | Func(source: string)

  /** The outcome of evaluating code that may throw; only TypeError arises in the modelled code. */
  datatype Completion<+T> = Normal(value: T) | TypeError

  /**
   * What lies outside the modelled code: the JSON text codec, and the methods of objects
   * this model has no code for (calling method `name` of `obj` with one argument).
   */
  datatype Host = Host(
    stringify: Value -> Value,
    parse: string -> Value,
    invoke: (Value, string, Value) -> Value)

  predicate Nullish(v: Value) {
    v.Undefined? || v.Null?
  }

  /** ToBoolean (ECMA-262, section 7.1.2): what `if (v)` and `v ? a : b` test. */
  predicate Truthy(v: Value) {
    match v
    case Undefined => false
    case Null => false
    case Bool(b) => b
    case Num(n) => n != 0
    case NaN => false
    case Str(s) => s != ""
    case _ => true
  }

  /** `typeof v === "function"` */
  predicate IsFunction(v: Value) {
    v.Func?
  }

  /** `a === b`; objects are compared by their contents, not their identity. */
  predicate StrictEquals(a: Value, b: Value) {
    a == b && !a.NaN?
  }

  /** `v[key]` on a value that is neither null nor undefined: own properties only. */
  function Prop(v: Value, key: string): (r: Value)
    requires !Nullish(v)
    ensures v.Obj? ==> (r.Undefined? || key in v.props)
    ensures v.Obj? && key in v.props ==> r == v.props[key]
  {
    match v
    case Obj(m) => if key in m then m[key] else Undefined
    case Str(s) => if key == "length" then Num(|s|) else Undefined
    case Arr(items) => if key == "length" then Num(|items|) else Undefined
    case _ => Undefined
  }

  /** `v[key]`: a TypeError on null and undefined. */
  function Get(v: Value, key: string): (r: Completion<Value>)
    ensures r.TypeError? <==> Nullish(v)
  {
    if Nullish(v) then TypeError else Normal(Prop(v, key))
  }

  /** `v.hasOwnProperty(key)`: a TypeError on null and undefined. */
  function HasOwn(v: Value, key: string): (r: Completion<bool>)
    ensures r.TypeError? <==> Nullish(v)
    ensures v.Obj? ==> r == Normal(key in v.props)
  {
    match v
    case Undefined => TypeError
    case Null => TypeError
    case Obj(m) => Normal(key in m)
    case Str(_) => Normal(key == "length")
    case Arr(_) => Normal(key == "length")
    case _ => Normal(false)
  }

  /**
   * `v[key] = x` in strict-mode code (class bodies and modules are strict): a TypeError on
   * primitives; on arrays and functions the new property is not kept by this model.
   */
  function SetProp(v: Value, key: string, x: Value): (r: Completion<Value>)
    ensures v.Obj? ==> r == Normal(Obj(v.props[key := x]))
    ensures (Nullish(v) || v.Bool? || v.Num? || v.NaN? || v.Str?) ==> r.TypeError?
  {
    match v
    case Obj(m) => Normal(Obj(m[key := x]))
    case Arr(_) => Normal(v)
    case Func(_) => Normal(v)
    case _ => TypeError
  }

  /** `{ ...v }`: the own enumerable properties of an object; nothing for any other value. */
  function Spread(v: Value): map<string, Value> {
    if v.Obj? then v.props else map[]
  }

  function Digit(d: nat): (c: char)
    requires d < 10
  {
    "0123456789"[d]
  }

  /** Decimal digits of a natural number, without leading zeros. */
  function NatToDecimal(n: nat): (s: string)
    ensures 0 < |s|
    ensures forall i :: 0 <= i < |s| ==> '0' <= s[i] <= '9'
    ensures s[0] == '0' ==> n == 0
  {
    if n < 10 then [Digit(n)] else NatToDecimal(n / 10) + [Digit(n % 10)]
  }

  /** Number::toString for an integer. */
  function IntToDecimal(n: int): string {
    if n < 0 then "-" + NatToDecimal(-n) else NatToDecimal(n)
  }

  /**
   * ToPropertyKey (ECMA-262, section 7.1.19) of a value: the property name that `o[v]`
   * reads or writes.
   */
  function KeyOf(v: Value): (k: string)
    decreases v, 1
  {
    match v
    case Undefined => "undefined"
    case Null => "null"
    case Bool(b) => if b then "true" else "false"
    case Num(n) => IntToDecimal(n)
    case NaN => "NaN"
    case Str(s) => s
    case Arr(items) => Join(items, 0)
    case Obj(_) => "[object Object]"
    case Func(src) => src
  }

  /** `items.slice(i).join(",")`: null and undefined elements become empty strings. */
  function Join(items: seq<Value>, i: nat): string
    requires i <= |items|
    decreases Arr(items), 0, |items| - i
  {
    if i == |items| then ""
    else
      var head := if Nullish(items[i]) then "" else KeyOf(items[i]);
      if i + 1 == |items| then head else head + "," + Join(items, i + 1)
  }
}
