/**
 * The message pipeline of a socket (src/Socket.js, the `send` and `onmessage` functions of
 * `funcs`): outbound data is wrapped by the enveloper and encoded by the encoder; inbound
 * data is decoded, unwrapped, and correlated with a waiting promise by its message id.
 */
module Messages {
  import opened JsValues
  import Enc = Encoders
  import Env = Envelopers

  /** The `encoder` and `enveloper` options of a socket, and the host that runs what they call. */
  datatype Codec = Codec(encoder: Enc.Encoder, enveloper: Env.Enveloper, host: Host)

  /** The codec of a socket built without those options: `new Encoder.Json()` and `new Enveloper()`. */
  function DefaultCodec(host: Host): (c: Codec)
    ensures c.encoder == Enc.JsonChain(1) && Enc.WellFormed(c.encoder)
    ensures Env.Implements(Env.AsValue(c.enveloper))
  {
    Codec(Enc.NewJsonEncoder(Enc.ForeignEncoder(Undefined)), Env.DefaultEnveloper, host)
  }

  /** The envelope of outbound data and its encoding, the two values `funcs.send` computes. */
  datatype Outgoing = Outgoing(wrapped: Value, encoded: Value)

  /** `enveloper.wrap(data)` then `encoder.encode(wrapped)`; a throwing `wrap` ends the send. */
  function Outbound(c: Codec, data: Value, uuid: nat -> string): Completion<Outgoing> {
    match Env.Wrap(c.enveloper, data, c.host, uuid)
    case TypeError => TypeError
    case Normal(w) => Normal(Outgoing(w, Enc.Encode(c.encoder, w, c.host)))
  }

  /** The outcome of `funcs.onmessage` after it fired the raw `onmessage` event. */
  datatype Incoming =
    | Unreadable                          // a TypeError ends the handler
    | Reply(key: string, value: Value)    // the promise waiting under `key` resolves with `value`
    | Unsolicited(value: Value)           // `ondata` fires with `value`

  /**
   * `funcs.onmessage(event)` given the keys of the waiting promises: `event.data` is decoded
   * and unwrapped; a truthy message id on the decoded value that names a waiting promise
   * makes the message that promise's reply, anything else is ordinary data.
   */
  function Inbound(c: Codec, messageId: Value, waiting: set<string>, event: Value): (r: Incoming)
    ensures r.Reply? ==> r.key in waiting
    ensures Nullish(event) ==> r == Unreadable
    ensures r.Unreadable? <==>
      || Nullish(event)
      || var decoded := Enc.Decode(c.encoder, Prop(event, "data"), c.host);
         Env.Unwrap(c.enveloper, decoded, c.host).TypeError? || Nullish(decoded)
    ensures !r.Unreadable? ==>
      && !Nullish(Enc.Decode(c.encoder, Prop(event, "data"), c.host))
      && Env.Unwrap(c.enveloper, Enc.Decode(c.encoder, Prop(event, "data"), c.host), c.host) == Normal(r.value)
    ensures !r.Unreadable? ==>
      var id := Prop(Enc.Decode(c.encoder, Prop(event, "data"), c.host), KeyOf(messageId));
      && (r.Reply? <==> Truthy(id) && KeyOf(id) in waiting)
      && (r.Reply? ==> r.key == KeyOf(id))
  {
    match Get(event, "data")
    case TypeError => Unreadable
    case Normal(raw) =>
      var decoded := Enc.Decode(c.encoder, raw, c.host);
      match Env.Unwrap(c.enveloper, decoded, c.host)
      case TypeError => Unreadable
      case Normal(unwrapped) =>
        if Nullish(decoded) then Unreadable
        else
          var id := Prop(decoded, KeyOf(messageId));
          if Truthy(id) && KeyOf(id) in waiting then Reply(KeyOf(id), unwrapped) else Unsolicited(unwrapped)
  }

  /** A message event as the transport delivers it: an object whose `data` is the payload. */
  function MessageEvent(payload: Value): (event: Value)
    ensures Get(event, "data") == Normal(payload)
  {
    Obj(map["data" := payload])
  }

  /**
   * A peer that sends back what it received: when the codec undoes itself on this message,
   * the echo is the reply to the promise named by the id the envelope carried, and it
   * delivers the original data; without such a promise it is ordinary data.
   */
  lemma EchoAnswers(c: Codec, messageId: Value, waiting: set<string>, data: Value, uuid: nat -> string)
    requires Outbound(c, data, uuid).Normal?
    requires !Nullish(Outbound(c, data, uuid).value.wrapped)
    requires Enc.Decode(c.encoder, Outbound(c, data, uuid).value.encoded, c.host) == Outbound(c, data, uuid).value.wrapped
    requires Env.Unwrap(c.enveloper, Outbound(c, data, uuid).value.wrapped, c.host) == Normal(data)
    ensures
      var out := Outbound(c, data, uuid).value;
      var id := Prop(out.wrapped, KeyOf(messageId));
      Inbound(c, messageId, waiting, MessageEvent(out.encoded))
        == if Truthy(id) && KeyOf(id) in waiting then Reply(KeyOf(id), data) else Unsolicited(data)
  {
  }

  /**
   * With the default codec and a JSON-safe value, the echo of a sent message is the reply to
   * the promise named by the value's own message id, and delivers the value itself.
   */
  lemma DefaultCodecEcho(host: Host, messageId: Value, waiting: set<string>, data: Value, uuid: nat -> string)
    requires Enc.FaithfulJson(host) && Enc.JsonValue(data) && Truthy(data)
    ensures Outbound(DefaultCodec(host), data, uuid) ==
      Normal(Outgoing(data, Enc.Encode(Enc.JsonChain(1), data, host)))
    ensures
      var id := Prop(data, KeyOf(messageId));
      Inbound(DefaultCodec(host), messageId, waiting, MessageEvent(Enc.Encode(Enc.JsonChain(1), data, host)))
        == if Truthy(id) && KeyOf(id) in waiting then Reply(KeyOf(id), data) else Unsolicited(data)
  {
    var c := DefaultCodec(host);
    Env.DefaultRoundTrip(data, host, uuid);
    Enc.JsonChainRoundTrip(1, data, host);
    EchoAnswers(c, messageId, waiting, data, uuid);
  }

  /**
   * With an `IdEnveloper` whose id property is the socket's message id, JSON encoding and
   * a non-empty uuid, the echo of a sent object is the reply to the promise stored under
   * the uuid the envelope drew, and delivers the object itself: the enveloper is the
   * provider of message ids.
   */
  lemma IdCodecEcho(host: Host, o: Env.IdOptions, messageId: Value, waiting: set<string>,
                    m: map<string, Value>, uuid: nat -> string, n: nat)
    requires Enc.FaithfulJson(host) && Enc.JsonValue(Obj(m)) && 1 <= n
    requires KeyOf(o.id) != KeyOf(o.data) && Env.KeepsDataProp(o) && !Env.ElevatesId(o)
    requires KeyOf(messageId) == KeyOf(o.id) && uuid(0) != ""
    ensures
      var c := Codec(Enc.JsonChain(n), Env.IdEnveloper(Env.NoOpEnveloper, o), host);
      && Outbound(c, Obj(m), uuid).Normal?
      && Prop(Outbound(c, Obj(m), uuid).value.wrapped, KeyOf(messageId)) == Str(uuid(0))
      && Inbound(c, messageId, waiting, MessageEvent(Outbound(c, Obj(m), uuid).value.encoded))
           == if uuid(0) in waiting then Reply(uuid(0), Obj(m)) else Unsolicited(Obj(m))
  {
    var c := Codec(Enc.JsonChain(n), Env.IdEnveloper(Env.NoOpEnveloper, o), host);
    var e := Env.IdEnveloper(Env.NoOpEnveloper, o);
    Env.IdWrapShape(Env.NoOpEnveloper, o, Obj(m), host, uuid);
    Env.IdNoOpRoundTrip(o, m, host, uuid);
    var env := Env.Wrap(e, Obj(m), host, uuid).value;
    var lifted := Env.Elevated(o.elevate, o.data, Obj(m));
    assert KeyOf(o.id) !in lifted by {
      if KeyOf(o.id) in lifted {
        Env.ElevatedIff(o.elevate, o.data, Obj(m), KeyOf(o.id));
        assert Env.ElevatesId(o);
      }
    }
    assert Enc.JsonValue(env) by {
      forall k | k in env.props ensures Enc.JsonValue(env.props[k]) {
        if k in lifted {
          Env.ElevatedOwnedBy(o.elevate, o.data, m);
        }
      }
    }
    Enc.JsonChainRoundTrip(n, env, host);
    EchoAnswers(c, messageId, waiting, Obj(m), uuid);
  }

  /**
   * The names a lookup `promises[key]` finds on a plain object that owns no property of that
   * name: the properties of Object.prototype (ECMA-262, section 20.1.3, and the legacy
   * accessors of its Annex B.2.2).  None of them has a `resolve` method.
   */
  const ObjectPrototypeNames: set<string> := {
    "constructor", "hasOwnProperty", "isPrototypeOf", "propertyIsEnumerable", "toLocaleString",
    "toString", "valueOf", "__proto__", "__defineGetter__", "__defineSetter__",
    "__lookupGetter__", "__lookupSetter__"}

  /**
   * `funcs.onmessage` as written: `promises[decoded[messageId]]` is read on a plain object,
   * so an id that names an Object.prototype property passes the test, and the call
   * `promise.resolve(unwrapped)` on the inherited function throws.
   */
  function InboundAsWritten(c: Codec, messageId: Value, waiting: set<string>, event: Value): (r: Incoming)
    ensures r.Reply? ==> r.key in waiting
    ensures Nullish(event) ==> r == Unreadable
    ensures r.Unreadable? <==>
      || Inbound(c, messageId, waiting, event).Unreadable?
      || var id := Prop(Enc.Decode(c.encoder, Prop(event, "data"), c.host), KeyOf(messageId));
         Truthy(id) && KeyOf(id) in ObjectPrototypeNames && KeyOf(id) !in waiting
    ensures !r.Unreadable? ==>
      && !Nullish(Enc.Decode(c.encoder, Prop(event, "data"), c.host))
      && Env.Unwrap(c.enveloper, Enc.Decode(c.encoder, Prop(event, "data"), c.host), c.host) == Normal(r.value)
    ensures !r.Unreadable? ==>
      var id := Prop(Enc.Decode(c.encoder, Prop(event, "data"), c.host), KeyOf(messageId));
      && (r.Reply? <==> Truthy(id) && KeyOf(id) in waiting)
      && (r.Reply? ==> r.key == KeyOf(id))
  {
    match Get(event, "data")
    case TypeError => Unreadable
    case Normal(raw) =>
      var decoded := Enc.Decode(c.encoder, raw, c.host);
      match Env.Unwrap(c.enveloper, decoded, c.host)
      case TypeError => Unreadable
      case Normal(unwrapped) =>
        if Nullish(decoded) then Unreadable
        else
          var id := Prop(decoded, KeyOf(messageId));
          if Truthy(id) && (KeyOf(id) in waiting || KeyOf(id) in ObjectPrototypeNames) then
            if KeyOf(id) in waiting then Reply(KeyOf(id), unwrapped) else Unreadable
          else Unsolicited(unwrapped)
  }

  /**
   * The two readings differ only on a message whose id names an Object.prototype property
   * and no waiting promise: as written it throws, where ordinary data was meant.
   */
  lemma AsWrittenDiffersOnInheritedIds(c: Codec, messageId: Value, waiting: set<string>, event: Value)
    ensures InboundAsWritten(c, messageId, waiting, event) != Inbound(c, messageId, waiting, event) ==>
      && InboundAsWritten(c, messageId, waiting, event) == Unreadable
      && Inbound(c, messageId, waiting, event).Unsolicited?
      && var id := Prop(Enc.Decode(c.encoder, Prop(event, "data"), c.host), KeyOf(messageId));
         Truthy(id) && KeyOf(id) in ObjectPrototypeNames && KeyOf(id) !in waiting
  {
  }

  /**
   * A message `{"id": "toString"}` with no promise waiting: the handler as written throws,
   * the corrected one delivers it as data.
   */
  lemma InheritedIdThrows(host: Host)
    ensures
      var c := Codec(Enc.NoOpEncoder, Env.NoOpEnveloper, host);
      var message := Obj(map["id" := Str("toString")]);
      && InboundAsWritten(c, Str("id"), {}, MessageEvent(message)) == Unreadable
      && Inbound(c, Str("id"), {}, MessageEvent(message)) == Unsolicited(message)
  {
  }

  /** With no promise waiting, every message the corrected handler can read reaches `ondata`. */
  lemma NothingWaitingMeansData(c: Codec, messageId: Value, event: Value)
    ensures Inbound(c, messageId, {}, event).Unreadable? <==>
      || Nullish(event)
      || Env.Unwrap(c.enveloper, Enc.Decode(c.encoder, Prop(event, "data"), c.host), c.host).TypeError?
      || Nullish(Enc.Decode(c.encoder, Prop(event, "data"), c.host))
    ensures !Inbound(c, messageId, {}, event).Reply?
  {
  }
}
