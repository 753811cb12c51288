/**
 * The encoder chain: the pass-through `NoOpEncoder` and the structural `Implements` test
 * (src/Encoders/common.js), the default `Encoder` class (src/Encoders/Encoder.js) and the
 * decorating `JsonEncoder` (src/Encoders/Json.js).  Encoders are values; an encoder object
 * this model has no code for is `ForeignEncoder`, whose methods the host runs.
 */
module Encoders {
  import opened JsValues

  datatype Encoder =
    | NoOpEncoder
    | DefaultEncoder
    | JsonEncoder(wrapped: Encoder)
    | ForeignEncoder(obj: Value)

  /** The arrow functions the modelled encoders install as own properties. */
  const IdentityFn := Func("data => data")
  const TruthyFn := Func("data => data ? data : null")
  const JsonDecodeFn := Func("JsonEncoder.decode")
  const JsonEncodeFn := Func("JsonEncoder.encode")

  /** An encoder as a JavaScript value: its own properties. */
  function AsValue(e: Encoder): Value {
    match e
    case NoOpEncoder => Obj(map["decode" := IdentityFn, "encode" := IdentityFn])
    case DefaultEncoder => Obj(map["decode" := TruthyFn, "encode" := TruthyFn])
    case JsonEncoder(w) =>
      Obj(map["wrapped" := AsValue(w), "decode" := JsonDecodeFn, "encode" := JsonEncodeFn])
    case ForeignEncoder(v) => v
  }

  /** `Implements(test)`: not null or undefined, and both `decode` and `encode` are truthy functions. */
  predicate Implements(test: Value) {
    && test != Null && test != Undefined
    && Truthy(Prop(test, "decode")) && IsFunction(Prop(test, "decode"))
    && Truthy(Prop(test, "encode")) && IsFunction(Prop(test, "encode"))
  }

  /** Exactly the objects that own a function `decode` and a function `encode` implement the interface. */
  lemma ImplementsIff(test: Value)
    ensures Implements(test) <==>
      && test.Obj?
      && "decode" in test.props && test.props["decode"].Func?
      && "encode" in test.props && test.props["encode"].Func?
  {
  }

  lemma ImplementsRejectsNullish(test: Value)
    requires Nullish(test)
    ensures !Implements(test)
  {
  }

  /** Every modelled encoder passes `Implements`, so a chain never falls back past one. */
  lemma ModelledEncodersImplement(e: Encoder)
    requires !e.ForeignEncoder?
    ensures Implements(AsValue(e))
  {
  }

  /** Every link of a chain passes `Implements`, as the constructors guarantee. */
  predicate WellFormed(e: Encoder) {
    match e
    case JsonEncoder(w) => Implements(AsValue(w)) && WellFormed(w)
    case ForeignEncoder(v) => Implements(v)
    case _ => true
  }

  /** `new JsonEncoder(wrapped)` */
  function NewJsonEncoder(wrapped: Encoder): (e: Encoder)
    ensures e.JsonEncoder? && Implements(AsValue(e.wrapped))
    ensures Implements(AsValue(wrapped)) ==> e.wrapped == wrapped
    ensures !Implements(AsValue(wrapped)) ==> e.wrapped == NoOpEncoder
    ensures WellFormed(wrapped) ==> WellFormed(e)
  {
    JsonEncoder(if Implements(AsValue(wrapped)) then wrapped else NoOpEncoder)
  }

  /** `encoder.decode(data)` */
  function Decode(e: Encoder, data: Value, host: Host): Value {
    match e
    case NoOpEncoder => data
    case DefaultEncoder => if Truthy(data) then data else Null
    case JsonEncoder(w) =>
      if Truthy(data) then
        var inner := Decode(w, data, host);
        if inner.Str? then host.parse(inner.s) else inner
      else Null
    case ForeignEncoder(v) => host.invoke(v, "decode", data)
  }

  /** `encoder.encode(data)` */
  function Encode(e: Encoder, data: Value, host: Host): Value {
    match e
    case NoOpEncoder => data
    case DefaultEncoder => if Truthy(data) then data else Null
    case JsonEncoder(w) => if Truthy(data) then Encode(w, host.stringify(data), host) else Null
    case ForeignEncoder(v) => host.invoke(v, "encode", data)
  }

  // ---- NoOpEncoder and the default Encoder ----

  /** The pass-through encoder is the exact identity, on falsy values too. */
  lemma NoOpIsIdentity(data: Value, host: Host)
    ensures Decode(NoOpEncoder, data, host) == data
    ensures Encode(NoOpEncoder, data, host) == data
  {
  }

  /** The default encoder keeps truthy values and turns every falsy one into null. */
  lemma DefaultKeepsTruthy(data: Value, host: Host)
    ensures Truthy(data) ==> Decode(DefaultEncoder, data, host) == data && Encode(DefaultEncoder, data, host) == data
    ensures !Truthy(data) ==> Decode(DefaultEncoder, data, host) == Null && Encode(DefaultEncoder, data, host) == Null
  {
  }

  lemma DefaultIdempotent(data: Value, host: Host)
    ensures Decode(DefaultEncoder, Decode(DefaultEncoder, data, host), host) == Decode(DefaultEncoder, data, host)
    ensures Encode(DefaultEncoder, Encode(DefaultEncoder, data, host), host) == Encode(DefaultEncoder, data, host)
  {
  }

  lemma DefaultRoundTrip(data: Value, host: Host)
    requires Truthy(data)
    ensures Decode(DefaultEncoder, Encode(DefaultEncoder, data, host), host) == data
  {
  }

  // ---- JsonEncoder ----

  /** A falsy payload decodes to null whatever the wrapped encoder is: the wrapped one is not consulted. */
  lemma JsonDecodeFalsy(w1: Encoder, w2: Encoder, data: Value, host: Host)
    requires !Truthy(data)
    ensures Decode(JsonEncoder(w1), data, host) == Null
    ensures Decode(JsonEncoder(w1), data, host) == Decode(JsonEncoder(w2), data, host)
  {
  }

  /** A falsy value encodes to null whatever the wrapped encoder is. */
  lemma JsonEncodeFalsy(w1: Encoder, w2: Encoder, data: Value, host: Host)
    requires !Truthy(data)
    ensures Encode(JsonEncoder(w1), data, host) == Null
    ensures Encode(JsonEncoder(w1), data, host) == Encode(JsonEncoder(w2), data, host)
  {
  }

  /**
   * Decoding runs the wrapped encoder first; only a string it returns is parsed, any other
   * result is returned as it is.
   */
  lemma JsonDecodeAfterInner(w: Encoder, data: Value, host: Host)
    requires Truthy(data)
    ensures Decode(w, data, host).Str? ==>
      Decode(JsonEncoder(w), data, host) == host.parse(Decode(w, data, host).s)
    ensures !Decode(w, data, host).Str? ==>
      Decode(JsonEncoder(w), data, host) == Decode(w, data, host)
  {
  }

  /** Encoding stringifies first and hands the text to the wrapped encoder. */
  lemma JsonEncodeBeforeInner(w: Encoder, data: Value, host: Host)
    requires Truthy(data)
    ensures Encode(JsonEncoder(w), data, host) == Encode(w, host.stringify(data), host)
  {
  }

  /**
   * The decorator law: when the wrapped encoder returns the JSON text of `data` intact (and
   * truthy), the JSON decorator returns what parsing that text gives.
   */
  lemma JsonOverInner(w: Encoder, data: Value, host: Host)
    requires Truthy(data) && host.stringify(data).Str?
    requires Truthy(Encode(w, host.stringify(data), host))
    requires Decode(w, Encode(w, host.stringify(data), host), host) == host.stringify(data)
    ensures Decode(JsonEncoder(w), Encode(JsonEncoder(w), data, host), host) == host.parse(host.stringify(data).s)
  {
  }

  /** With the pass-through inner encoder, decoding an encoding gives back the parse of the JSON text. */
  lemma JsonNoOpRoundTrip(data: Value, host: Host)
    requires Truthy(data) && host.stringify(data).Str? && host.stringify(data).s != ""
    ensures Decode(JsonEncoder(NoOpEncoder), Encode(JsonEncoder(NoOpEncoder), data, host), host)
         == host.parse(host.stringify(data).s)
  {
    JsonOverInner(NoOpEncoder, data, host);
  }

  /** A value JSON can carry: no undefined, no function and no NaN anywhere inside. */
  predicate JsonValue(v: Value) {
    match v
    case Undefined => false
    case NaN => false
    case Func(_) => false
    case Arr(items) => forall i :: 0 <= i < |items| ==> JsonValue(items[i])
    case Obj(m) => forall k :: k in m ==> JsonValue(m[k])
    case _ => true
  }

  /** The JSON round trip: JSON.stringify gives non-empty text that JSON.parse turns back into the value. */
  ghost predicate FaithfulJson(host: Host) {
    forall v {:trigger host.stringify(v)} :: JsonValue(v) ==>
      host.stringify(v).Str? && host.stringify(v).s != "" && host.parse(host.stringify(v).s) == v
  }

  /** `n` JSON decorators around the pass-through encoder. */
  function JsonChain(n: nat): (e: Encoder)
    ensures WellFormed(e)
  {
    if n == 0 then NoOpEncoder else JsonEncoder(JsonChain(n - 1))
  }

  /** Encoding through at least one JSON decorator yields non-empty text. */
  lemma {:induction false} JsonChainEncodesToText(n: nat, data: Value, host: Host)
    requires FaithfulJson(host) && 1 <= n
    requires JsonValue(data) && Truthy(data)
    ensures Encode(JsonChain(n), data, host).Str?
    ensures Encode(JsonChain(n), data, host).s != ""
  {
    var text := host.stringify(data);
    assert text.Str? && text.s != "";
    if n > 1 {
      JsonChainEncodesToText(n - 1, text, host);
    }
  }

  /**
   * Chained JSON decorators undo each other in reverse order: under the JSON round trip,
   * decoding what a chain encoded gives back the value.
   */
  lemma {:induction false} JsonChainRoundTrip(n: nat, data: Value, host: Host)
    requires FaithfulJson(host) && 1 <= n
    requires JsonValue(data) && Truthy(data)
    ensures Decode(JsonChain(n), Encode(JsonChain(n), data, host), host) == data
  {
    var w := JsonChain(n - 1);
    var text := host.stringify(data);
    assert text.Str? && text.s != "" && host.parse(text.s) == data;
    if n == 1 {
      JsonOverInner(w, data, host);
    } else {
      JsonChainEncodesToText(n - 1, text, host);
      JsonChainRoundTrip(n - 1, text, host);
      JsonOverInner(w, data, host);
    }
  }
}
