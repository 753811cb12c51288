/**
 * The enveloper chain: the pass-through `NoOpEnveloper` and the structural `Implements`
 * test (src/Envelopers/common.js), the default `Enveloper` class
 * (src/Envelopers/Enveloper.js) and the id-injecting `IdEnveloper` (src/Envelopers/Id.js).
 * Envelopers are values; an enveloper object this model has no code for is
 * `ForeignEnveloper`, whose methods the host runs.
 */
module Envelopers {
  import opened JsValues

  /** The options of an `IdEnveloper` after the constructor merged and normalised them. */
  datatype IdOptions = IdOptions(id: Value, data: Value, elevate: seq<Value>)

  datatype Enveloper =
    | NoOpEnveloper
    | DefaultEnveloper
    | IdEnveloper(wrapped: Enveloper, options: IdOptions)
    | ForeignEnveloper(obj: Value)

  /** The arrow functions the modelled envelopers install as own properties. */
  const IdentityFn := Func("data => data")
  const TruthyFn := Func("data => data ? data : null")
  const IdUnwrapFn := Func("IdEnveloper.unwrap")
  const IdWrapFn := Func("IdEnveloper.wrap")

  function OptionsValue(o: IdOptions): Value {
    Obj(map["id" := o.id, "data" := o.data, "elevate" := Arr(o.elevate)])
  }

  /** An enveloper as a JavaScript value: its own properties. */
  function AsValue(e: Enveloper): Value {
    match e
    case NoOpEnveloper => Obj(map["wrap" := IdentityFn, "unwrap" := IdentityFn])
    case DefaultEnveloper => Obj(map["wrap" := TruthyFn, "unwrap" := TruthyFn])
    case IdEnveloper(w, o) =>
      Obj(map["wrapped" := AsValue(w), "options" := OptionsValue(o), "unwrap" := IdUnwrapFn, "wrap" := IdWrapFn])
    case ForeignEnveloper(v) => v
  }

  /** `Implements(test)`: not null or undefined, and both `wrap` and `unwrap` are truthy functions. */
  predicate Implements(test: Value) {
    && test != Null && test != Undefined
    && Truthy(Prop(test, "wrap")) && IsFunction(Prop(test, "wrap"))
    && Truthy(Prop(test, "unwrap")) && IsFunction(Prop(test, "unwrap"))
  }

  /** Exactly the objects that own a function `wrap` and a function `unwrap` implement the interface. */
  lemma ImplementsIff(test: Value)
    ensures Implements(test) <==>
      && test.Obj?
      && "wrap" in test.props && test.props["wrap"].Func?
      && "unwrap" in test.props && test.props["unwrap"].Func?
  {
  }

  lemma ImplementsRejectsNullish(test: Value)
    requires Nullish(test)
    ensures !Implements(test)
  {
  }

  /** Every modelled enveloper passes `Implements`. */
  lemma ModelledEnvelopersImplement(e: Enveloper)
    requires !e.ForeignEnveloper?
    ensures Implements(AsValue(e))
  {
  }

  // ---- construction of an IdEnveloper ----

  const DefaultIdOptions: map<string, Value> := map["id" := Str("id"), "data" := Str("data"), "elevate" := Arr([])]

  /** `new IdEnveloper(options, wrapped)` */
  function NewIdEnveloper(options: Value, wrapped: Enveloper): (e: Enveloper)
    ensures e.IdEnveloper?
    ensures Implements(AsValue(wrapped)) ==> e.wrapped == wrapped
    ensures !Implements(AsValue(wrapped)) ==> e.wrapped == NoOpEnveloper
    ensures e.options.id == if "id" in Spread(options) then Spread(options)["id"] else Str("id")
    ensures e.options.data == if "data" in Spread(options) then Spread(options)["data"] else Str("data")
    ensures "elevate" in Spread(options) && Spread(options)["elevate"].Arr? ==>
      e.options.elevate == Spread(options)["elevate"].items
    ensures !("elevate" in Spread(options) && Spread(options)["elevate"].Arr?) ==> e.options.elevate == []
  {
    var merged := DefaultIdOptions + Spread(options);
    var elevate := if merged["elevate"].Arr? then merged["elevate"].items else [];
    IdEnveloper(
      if Implements(AsValue(wrapped)) then wrapped else NoOpEnveloper,
      IdOptions(merged["id"], merged["data"], elevate))
  }

  // ---- the elevate loops ----

  /** `prop !== dataProp && src.hasOwnProperty(prop)`: entry `prop` is copied from `src`. */
  predicate Lifts(prop: Value, dataProp: Value, src: Value) {
    !StrictEquals(prop, dataProp) && HasOwn(src, KeyOf(prop)) == Normal(true)
  }

  /** The names of the elevated properties that `src` owns, other than the data property. */
  ghost function Elevated(props: seq<Value>, dataProp: Value, src: Value): (names: set<string>)
    ensures names != {} ==> !Nullish(src)
    decreases |props|
  {
    if props == [] then {}
    else (if Lifts(props[0], dataProp, src) then {KeyOf(props[0])} else {}) + Elevated(props[1..], dataProp, src)
  }

  /** `m` with each property named in `keys` replaced by (or extended with) that property of `src`. */
  ghost function Lifted(m: map<string, Value>, src: Value, keys: set<string>): map<string, Value>
    requires !Nullish(src)
  {
    map k | k in m.Keys + keys :: if k in keys then Prop(src, k) else m[k]
  }

  /** A name is elevated exactly when some entry lifts a property of that name. */
  lemma {:induction false} ElevatedIff(props: seq<Value>, dataProp: Value, src: Value, k: string)
    ensures k in Elevated(props, dataProp, src) <==>
      exists i :: 0 <= i < |props| && Lifts(props[i], dataProp, src) && KeyOf(props[i]) == k
    decreases |props|
  {
    if props != [] {
      var tail := props[1..];
      ElevatedIff(tail, dataProp, src, k);
      if k in Elevated(props, dataProp, src) && !(Lifts(props[0], dataProp, src) && KeyOf(props[0]) == k) {
        var j :| 0 <= j < |tail| && Lifts(tail[j], dataProp, src) && KeyOf(tail[j]) == k;
        assert props[j + 1] == tail[j];
      }
      forall i | 0 < i < |props| && Lifts(props[i], dataProp, src) && KeyOf(props[i]) == k
        ensures k in Elevated(tail, dataProp, src)
      {
        assert tail[i - 1] == props[i];
      }
    }
  }

  /** Only properties that an object owns are elevated from it. */
  lemma ElevatedOwnedBy(props: seq<Value>, dataProp: Value, m: map<string, Value>)
    ensures Elevated(props, dataProp, Obj(m)) <= m.Keys
  {
    forall k | k in Elevated(props, dataProp, Obj(m)) ensures k in m {
      ElevatedIff(props, dataProp, Obj(m), k);
    }
  }

  lemma LiftedNothing(m: map<string, Value>, src: Value)
    requires !Nullish(src)
    ensures Lifted(m, src, {}) == m
  {
  }

  /**
   * The loop of `wrap` (Id.js:77-81): every elevated property that `src` owns, other than the
   * data property, is copied into `rv`, left to right.  `src.hasOwnProperty` throws when `src`
   * is null or undefined and an entry other than the data property is reached.
   */
  function ElevateInto(props: seq<Value>, dataProp: Value, src: Value, rv: map<string, Value>)
    : (r: Completion<map<string, Value>>)
    ensures r.TypeError? <==>
      Nullish(src) && exists i :: 0 <= i < |props| && !StrictEquals(props[i], dataProp)
    ensures r.Normal? && Nullish(src) ==> r.value == rv
    ensures r.Normal? && !Nullish(src) ==> r.value == Lifted(rv, src, Elevated(props, dataProp, src))
    decreases |props|
  {
    if props == [] then Normal(rv)
    else
      var prop := props[0];
      if StrictEquals(prop, dataProp) then
        OthersInTail(props, dataProp);
        ElevateInto(props[1..], dataProp, src, rv)
      else
        var has := HasOwn(src, KeyOf(prop));
        if has.TypeError? then TypeError
        else
          var key := KeyOf(prop);
          if has.value then
            LiftedStep(rv, src, Elevated(props[1..], dataProp, src), key);
            ElevateInto(props[1..], dataProp, src, rv[key := Prop(src, key)])
          else
            ElevateInto(props[1..], dataProp, src, rv)
  }

  /** When the first entry is the data property, the other entries are all in the tail. */
  lemma OthersInTail(props: seq<Value>, dataProp: Value)
    requires props != [] && StrictEquals(props[0], dataProp)
    ensures (exists i :: 0 <= i < |props| && !StrictEquals(props[i], dataProp)) <==>
      (exists j :: 0 <= j < |props| - 1 && !StrictEquals(props[1..][j], dataProp))
  {
    if exists i :: 0 <= i < |props| && !StrictEquals(props[i], dataProp) {
      var i :| 0 <= i < |props| && !StrictEquals(props[i], dataProp);
      assert props[1..][i - 1] == props[i];
    }
    if exists j :: 0 <= j < |props| - 1 && !StrictEquals(props[1..][j], dataProp) {
      var j :| 0 <= j < |props| - 1 && !StrictEquals(props[1..][j], dataProp);
      assert props[j + 1] == props[1..][j];
    }
  }

  /** Lifting `key` first and then a set of keys is lifting both. */
  lemma LiftedStep(rv: map<string, Value>, src: Value, later: set<string>, key: string)
    requires !Nullish(src)
    ensures Lifted(rv[key := Prop(src, key)], src, later) == Lifted(rv, src, {key} + later)
  {
  }

  /**
   * The loop of `unwrap` (Id.js:54-58): every elevated property the envelope `src` owns,
   * other than the data property, is written onto `rv`, left to right; writing onto a
   * primitive throws in strict-mode code.
   */
  function ElevateOnto(props: seq<Value>, dataProp: Value, src: Value, rv: Value): (r: Completion<Value>)
    requires !Nullish(src)
    ensures rv.Obj? ==> r == Normal(Obj(Lifted(rv.props, src, Elevated(props, dataProp, src))))
    ensures (rv.Bool? || rv.Num? || rv.NaN? || rv.Str? || Nullish(rv)) ==>
      (r.TypeError? <==> Elevated(props, dataProp, src) != {})
    ensures r.Normal? && !rv.Obj? ==> r.value == rv
    decreases |props|
  {
    if props == [] then
      if rv.Obj? then LiftedNothing(rv.props, src); Normal(rv) else Normal(rv)
    else
      var prop := props[0];
      var key := KeyOf(prop);
      if !StrictEquals(prop, dataProp) && HasOwn(src, key) == Normal(true) then
        match SetProp(rv, key, Prop(src, key))
        case TypeError => TypeError
        case Normal(next) =>
          var r := ElevateOnto(props[1..], dataProp, src, next);
          if rv.Obj? then
            LiftedStep(rv.props, src, Elevated(props[1..], dataProp, src), key);
            assert next == Obj(rv.props[key := Prop(src, key)]);
            assert Elevated(props, dataProp, src) == Elevated(props[1..], dataProp, src) + {key};
            r
          else r
      else
        assert Elevated(props, dataProp, src) == Elevated(props[1..], dataProp, src);
        ElevateOnto(props[1..], dataProp, src, rv)
  }

  // ---- wrap and unwrap ----

  /** The uuid source seen by the enveloper one link further in. */
  function Later(uuid: nat -> string): nat -> string {
    (n: nat) => uuid(n + 1)
  }

  /**
   * `enveloper.wrap(data)`; `uuid(0)` is the identifier the outermost `IdEnveloper` draws
   * (uuidv4 is left to the caller), `uuid(k)` the one drawn k links further in.
   */
  function Wrap(e: Enveloper, data: Value, host: Host, uuid: nat -> string): Completion<Value> {
    match e
    case NoOpEnveloper => Normal(data)
    case DefaultEnveloper => Normal(if Truthy(data) then data else Null)
    case ForeignEnveloper(v) => Normal(host.invoke(v, "wrap", data))
    case IdEnveloper(w, o) =>
      match Wrap(w, data, host, Later(uuid))
      case TypeError => TypeError
      case Normal(d) =>
        var rv := map[KeyOf(o.data) := d][KeyOf(o.id) := Str(uuid(0))];
        match ElevateInto(o.elevate, o.data, d, rv)
        case TypeError => TypeError
        case Normal(m) => Normal(Obj(m))
  }

  /** `enveloper.unwrap(data)` */
  function Unwrap(e: Enveloper, data: Value, host: Host): Completion<Value> {
    match e
    case NoOpEnveloper => Normal(data)
    case DefaultEnveloper => Normal(if Truthy(data) then data else Null)
    case ForeignEnveloper(v) => Normal(host.invoke(v, "unwrap", data))
    case IdEnveloper(w, o) =>
      match Get(data, KeyOf(o.data))
      case TypeError => TypeError
      case Normal(inner) =>
        var rv := if Truthy(inner) then inner else Obj(map[]);
        match ElevateOnto(o.elevate, o.data, data, rv)
        case TypeError => TypeError
        case Normal(r) => Unwrap(w, r, host)
  }

  // ---- NoOpEnveloper and the default Enveloper ----

  lemma NoOpIsIdentity(data: Value, host: Host, uuid: nat -> string)
    ensures Wrap(NoOpEnveloper, data, host, uuid) == Normal(data)
    ensures Unwrap(NoOpEnveloper, data, host) == Normal(data)
  {
  }

  lemma DefaultKeepsTruthy(data: Value, host: Host, uuid: nat -> string)
    ensures Truthy(data) ==> Wrap(DefaultEnveloper, data, host, uuid) == Normal(data)
    ensures Truthy(data) ==> Unwrap(DefaultEnveloper, data, host) == Normal(data)
    ensures !Truthy(data) ==> Wrap(DefaultEnveloper, data, host, uuid) == Normal(Null)
    ensures !Truthy(data) ==> Unwrap(DefaultEnveloper, data, host) == Normal(Null)
  {
  }

  lemma DefaultIdempotent(data: Value, host: Host, uuid: nat -> string)
    ensures Wrap(DefaultEnveloper, Wrap(DefaultEnveloper, data, host, uuid).value, host, uuid)
         == Wrap(DefaultEnveloper, data, host, uuid)
    ensures Unwrap(DefaultEnveloper, Unwrap(DefaultEnveloper, data, host).value, host)
         == Unwrap(DefaultEnveloper, data, host)
  {
  }

  lemma DefaultRoundTrip(data: Value, host: Host, uuid: nat -> string)
    requires Truthy(data)
    ensures Unwrap(DefaultEnveloper, Wrap(DefaultEnveloper, data, host, uuid).value, host) == Normal(data)
  {
  }

  // ---- IdEnveloper ----

  /** No entry of `elevate` names the data property except the data property itself. */
  predicate KeepsDataProp(o: IdOptions) {
    forall i :: 0 <= i < |o.elevate| && KeyOf(o.elevate[i]) == KeyOf(o.data) ==> StrictEquals(o.elevate[i], o.data)
  }

  /** Some entry of `elevate`, other than the data property, names the id property. */
  predicate ElevatesId(o: IdOptions) {
    exists i :: 0 <= i < |o.elevate| && !StrictEquals(o.elevate[i], o.data) && KeyOf(o.elevate[i]) == KeyOf(o.id)
  }

  /**
   * What `wrap` builds around the inner-wrapped data `d`: `d` under the data property, the
   * fresh uuid under the id property unless an elevated property of `d` with that name
   * overwrote it, and every elevated property `d` owns.
   */
  lemma IdWrapShape(w: Enveloper, o: IdOptions, data: Value, host: Host, uuid: nat -> string)
    requires Wrap(w, data, host, Later(uuid)).Normal?
    requires !Nullish(Wrap(w, data, host, Later(uuid)).value)
    requires KeyOf(o.id) != KeyOf(o.data) && KeepsDataProp(o)
    ensures Wrap(IdEnveloper(w, o), data, host, uuid).Normal?
    ensures
      var d := Wrap(w, data, host, Later(uuid)).value;
      var r := Wrap(IdEnveloper(w, o), data, host, uuid).value;
      var lifted := Elevated(o.elevate, o.data, d);
      && r.Obj?
      && r.props.Keys == {KeyOf(o.data), KeyOf(o.id)} + lifted
      && r.props[KeyOf(o.data)] == d
      && r.props[KeyOf(o.id)] == (if KeyOf(o.id) in lifted then Prop(d, KeyOf(o.id)) else Str(uuid(0)))
      && forall k :: k in lifted ==> r.props[k] == Prop(d, k)
  {
    var d := Wrap(w, data, host, Later(uuid)).value;
    var rv := map[KeyOf(o.data) := d][KeyOf(o.id) := Str(uuid(0))];
    ElevatedIff(o.elevate, o.data, d, KeyOf(o.data));
  }

  /** `wrap` throws exactly when the inner `wrap` does, or when it returned null or undefined and an elevated entry other than the data property is looked up on it. */
  lemma IdWrapThrows(w: Enveloper, o: IdOptions, data: Value, host: Host, uuid: nat -> string)
    ensures Wrap(IdEnveloper(w, o), data, host, uuid).TypeError? <==>
      || Wrap(w, data, host, Later(uuid)).TypeError?
      || (Nullish(Wrap(w, data, host, Later(uuid)).value)
          && exists i :: 0 <= i < |o.elevate| && !StrictEquals(o.elevate[i], o.data))
  {
  }

  /**
   * What `unwrap` gives the inner enveloper: the envelope's data property when that is a
   * truthy object (else a new empty object), with every elevated property the envelope owns,
   * other than the data property, written onto it.
   */
  lemma IdUnwrapShape(w: Enveloper, o: IdOptions, env: Value, host: Host)
    requires !Nullish(env)
    requires var inner := Prop(env, KeyOf(o.data)); inner.Obj? || !Truthy(inner)
    ensures
      var inner := Prop(env, KeyOf(o.data));
      var start := if Truthy(inner) then inner.props else map[];
      Unwrap(IdEnveloper(w, o), env, host) ==
        Unwrap(w, Obj(Lifted(start, env, Elevated(o.elevate, o.data, env))), host)
  {
  }

  /** `unwrap` of null or undefined throws: it reads the data property first. */
  lemma IdUnwrapOfNullish(w: Enveloper, o: IdOptions, env: Value, host: Host)
    requires Nullish(env)
    ensures Unwrap(IdEnveloper(w, o), env, host).TypeError?
  {
  }

  /**
   * The decorator law: when the inner enveloper turns `data` into an object and back, the
   * `IdEnveloper` around it does too, provided the id and data properties differ, no elevated
   * entry names the data property, and an elevated id property is owned by that object (else
   * the uuid would be copied into the result).
   */
  lemma IdOverInner(w: Enveloper, o: IdOptions, data: Value, host: Host, uuid: nat -> string)
    requires Wrap(w, data, host, Later(uuid)).Normal? && Wrap(w, data, host, Later(uuid)).value.Obj?
    requires Unwrap(w, Wrap(w, data, host, Later(uuid)).value, host) == Normal(data)
    requires KeyOf(o.id) != KeyOf(o.data) && KeepsDataProp(o)
    requires ElevatesId(o) ==> KeyOf(o.id) in Wrap(w, data, host, Later(uuid)).value.props
    ensures Wrap(IdEnveloper(w, o), data, host, uuid).Normal?
    ensures Unwrap(IdEnveloper(w, o), Wrap(IdEnveloper(w, o), data, host, uuid).value, host) == Normal(data)
  {
    var d := Wrap(w, data, host, Later(uuid)).value;
    var m := d.props;
    IdWrapShape(w, o, data, host, uuid);
    var env := Wrap(IdEnveloper(w, o), data, host, uuid).value;
    var lifted := Elevated(o.elevate, o.data, d);
    assert env.props[KeyOf(o.data)] == d;
    var back := Elevated(o.elevate, o.data, env);
    ElevatedOwned(o, m, env.props);
    assert back == lifted;
    IdUnwrapShape(w, o, env, host);
    ElevatedOwnedBy(o.elevate, o.data, m);
    assert Lifted(m, env, back) == m;
  }

  /**
   * Which elevated names an envelope owns: those the wrapped object owns, and the id
   * property when it is elevated (the envelope always owns it).
   */
  lemma ElevatedOwned(o: IdOptions, m: map<string, Value>, env: map<string, Value>)
    requires KeyOf(o.id) != KeyOf(o.data) && KeepsDataProp(o)
    requires env.Keys == {KeyOf(o.data), KeyOf(o.id)} + Elevated(o.elevate, o.data, Obj(m))
    requires ElevatesId(o) ==> KeyOf(o.id) in m
    ensures Elevated(o.elevate, o.data, Obj(env)) == Elevated(o.elevate, o.data, Obj(m))
  {
    forall k ensures k in Elevated(o.elevate, o.data, Obj(env)) <==> k in Elevated(o.elevate, o.data, Obj(m)) {
      ElevatedIff(o.elevate, o.data, Obj(env), k);
      ElevatedIff(o.elevate, o.data, Obj(m), k);
      if k in Elevated(o.elevate, o.data, Obj(env)) {
        var i :| 0 <= i < |o.elevate| && Lifts(o.elevate[i], o.data, Obj(env)) && KeyOf(o.elevate[i]) == k;
        if k == KeyOf(o.id) {
          assert ElevatesId(o);
        } else if k !in Elevated(o.elevate, o.data, Obj(m)) {
          assert false;
        }
      }
      if k in Elevated(o.elevate, o.data, Obj(m)) {
        var i :| 0 <= i < |o.elevate| && Lifts(o.elevate[i], o.data, Obj(m)) && KeyOf(o.elevate[i]) == k;
        assert Lifts(o.elevate[i], o.data, Obj(env));
      }
    }
  }

  /** With the pass-through inner enveloper, `unwrap(wrap(d)) == d` for every object `d` under the conditions of `IdOverInner`. */
  lemma IdNoOpRoundTrip(o: IdOptions, m: map<string, Value>, host: Host, uuid: nat -> string)
    requires KeyOf(o.id) != KeyOf(o.data) && KeepsDataProp(o)
    requires ElevatesId(o) ==> KeyOf(o.id) in m
    ensures Wrap(IdEnveloper(NoOpEnveloper, o), Obj(m), host, uuid).Normal?
    ensures Unwrap(IdEnveloper(NoOpEnveloper, o), Wrap(IdEnveloper(NoOpEnveloper, o), Obj(m), host, uuid).value, host)
         == Normal(Obj(m))
  {
    IdOverInner(NoOpEnveloper, o, Obj(m), host, uuid);
  }
}
