# fantaptik-socket, modelled in Dafny

This project models the client `Socket` of fantaptik-socket and the codec it drives. `Socket` wraps a
browser WebSocket. It buffers messages sent while disconnected, reconnects on a timer whose delay a retry
provider chooses, debounces its `ondisconnect` event, and resolves promises by message id. Outbound
messages pass through an *enveloper* (`wrap`) and then an *encoder* (`encode`); inbound ones pass through
`decode` and then `unwrap`.

Files, one Dafny module each:

- `js_values.dfy` (`JsValues`): JavaScript values as the code sees them. It covers truthiness (ECMA-262,
  section 7.1.2), `===`, property reads and writes, `hasOwnProperty`, and the conversion of a value to a
  property name.
- `encoders.dfy` (`Encoders`): `NoOpEncoder` and `Implements` (src/Encoders/common.js), the default
  `Encoder` (src/Encoders/Encoder.js) and the decorating `JsonEncoder` (src/Encoders/Json.js). These are
  values with `Decode`/`Encode` functions, plus round-trip and ordering lemmas.
- `envelopers.dfy` (`Envelopers`): `NoOpEnveloper` and `Implements` (src/Envelopers/common.js), the
  default `Enveloper` (src/Envelopers/Enveloper.js) and `IdEnveloper` (src/Envelopers/Id.js). The
  `elevate` loops of `wrap` and `unwrap` are folds over the property maps.
- `messages.dfy` (`Messages`): the message pipeline of `funcs.send` and `funcs.onmessage`, and how a
  message is matched to a waiting promise.
- `socket.dfy` (`Sockets`): the option merge, the order of event registration, and the `Socket` class.
  The class keeps the connection state in fields that its methods update, and appends everything it asks
  of the outside world (events triggered, WebSockets created, timers set, payloads sent, promises
  resolved) to a `trace`.
- `scenarios.dfy` (`Scenarios`): runs through several callbacks of one socket. Examples are stop then
  close, error then close, a failed attempt reported twice, `connect()` during a pending retry, and
  buffered sends flushed on open.

The transport and the timers are outside the model. The environment drives the socket by calling
`HandleOpen`, `HandleMessage`, `HandleLoss` (a WebSocket's `onclose`/`onerror`) and `TimerFires`. It may
call any callback of any WebSocket the socket created, any number of times and in any order. A WebSocket
is a `Handle`. `modes` records which closures each WebSocket carries as `onclose` and `onerror`:

- `Attempting`: the `failed` closures of `connect`;
- `Reconnecting`: installed by `onopen`;
- `NonReconnecting`: installed by `stop`.

The `delete socket.onX` statements remove nothing. A WebSocket's event handler attributes are accessors
on its prototype, not own properties of the instance. So a WebSocket keeps its closures and may go on
calling them, as the comment at src/Socket.js:422-425 expects: `onerror` and then `onclose` both run
after a failed attempt.

The class invariant `Valid` is the connection state machine:

- every WebSocket was created by the socket;
- the socket, if any, carries the closures of an opened connection;
- `ondisconnect` is armed exactly while there is a socket;
- nothing stays buffered while there is a socket;
- a ghost log `signals` records, in order, every `onopen`, `ondisconnect`, timer set and timer fired.
  It shows that `ondisconnect` never fired unarmed and that the timer was never set while pending,
  and the flags `disconnectArmed` and `timerPending` agree with it.

From the log, `DisconnectOncePerOpen` proves that `onopen` fired between any two `ondisconnect`s, and
`OneTimerAtATime` that the timer fired between any two settings of it. `attempting` is not tied to the
timer. After a failed attempt reports both `onerror` and `onclose`, the second `failed()` clears
`attempting` while the timer stays pending (`Scenarios.AttemptFailsTwice`).

Every public method and environment callback keeps `Valid`. The internal steps of `send` and `onopen`
(`Deliver`, `Transmit`, `Dispatch`, `Await`, `RelayConnectSends`, `Flush`, `Adopt`, `Settle`) keep
`Sound`, which is `Valid` without the empty-buffer clause. Their postconditions state the whole new
state and the effects appended to the trace.

Where the code and its documentation disagree, the model follows the code:

- `stopped` starts `false` (src/Socket.js:208).
- The option names are `buffer`, `reconnect` and `messageId`, and `reconnect` is never read (src/Socket.js:370). Reconnecting callbacks are always installed on open (src/Socket.js:436-437).
- A negative retry delay is passed to the timer unchanged; only the doc comment at src/Socket.js:58 speaks of clamping.
- `stop()` without an open socket does nothing, even during an attempt or while a retry timer is pending (src/Socket.js:476).
- `connect()` is guarded by `attempting` and the socket, not by the timer. After a double failure it starts an attempt while the timer is pending, and the timer's own `connect()` then starts another (`Scenarios.ConnectDuringRetry`).
- `onopen` fires `onopen` and `onconnect` before it flushes the buffer.
- `onmessage` unwraps before it looks for a waiting promise.

## Model

| member | source | states |
|---|---|---|
| Encoders.Implements | src/Encoders/common.js:18-22 | the definition of the interface test (not null or undefined, truthy function-valued `decode` and `encode`); its properties are stated by `Encoders.ImplementsIff`, `Encoders.ImplementsRejectsNullish` and `Encoders.ModelledEncodersImplement` |
| Encoders.ImplementsIff | src/Encoders/common.js:18-22 | a value implements the encoder interface exactly when it is an object owning function-valued `decode` and `encode` |
| Encoders.ImplementsRejectsNullish | src/Encoders/common.js:19 | null and undefined never implement the interface |
| Encoders.ModelledEncodersImplement | src/Encoders/common.js:6-22 | `NoOpEncoder`, a default `Encoder` and every `JsonEncoder` pass `Implements` |
| Encoders.NewJsonEncoder | src/Encoders/Json.js:15-17 | the inner encoder is the given one when it passes `Implements`, else `NoOpEncoder`; a well-formed chain stays well-formed |
| Encoders.Decode | src/Encoders/Json.js:29-38 | the definition of `decode` for each encoder (`NoOpEncoder` at src/Encoders/common.js:7, the default at src/Encoders/Encoder.js:57, `JsonEncoder` here, a foreign one through the host); its properties are stated by `Encoders.NoOpIsIdentity`, `Encoders.DefaultKeepsTruthy`, `Encoders.DefaultIdempotent`, `Encoders.JsonDecodeFalsy`, `Encoders.JsonDecodeAfterInner` and the round-trip lemmas |
| Encoders.Encode | src/Encoders/Json.js:50-56 | the definition of `encode` for each encoder (`NoOpEncoder` at src/Encoders/common.js:8, the default at src/Encoders/Encoder.js:66, `JsonEncoder` here, a foreign one through the host); its properties are stated by `Encoders.NoOpIsIdentity`, `Encoders.DefaultKeepsTruthy`, `Encoders.JsonEncodeFalsy`, `Encoders.JsonEncodeBeforeInner`, `Encoders.JsonChainEncodesToText` and the round-trip lemmas |
| Encoders.NoOpIsIdentity | src/Encoders/common.js:6-9 | `NoOpEncoder.decode` and `encode` return their argument, falsy ones included |
| Encoders.DefaultKeepsTruthy | src/Encoders/Encoder.js:57-66 | the default encoder returns a truthy argument unchanged and null for every falsy one, in both directions |
| Encoders.DefaultIdempotent | src/Encoders/Encoder.js:57-66 | applying the default `decode` (or `encode`) twice equals applying it once |
| Encoders.DefaultRoundTrip | src/Encoders/Encoder.js:57-66 | `decode(encode(x)) == x` for every truthy `x` |
| Encoders.JsonDecodeFalsy | src/Encoders/Json.js:29-38 | `JsonEncoder.decode` of a falsy value is null whatever the inner encoder, so the inner one is not consulted |
| Encoders.JsonEncodeFalsy | src/Encoders/Json.js:50-56 | `JsonEncoder.encode` of a falsy value is null whatever the inner encoder |
| Encoders.JsonDecodeAfterInner | src/Encoders/Json.js:30-35 | `decode` runs the inner `decode` first and JSON-parses its result only when that is a string, else returns it unchanged |
| Encoders.JsonEncodeBeforeInner | src/Encoders/Json.js:51-53 | `encode` stringifies first and hands the text to the inner `encode`, the reverse of decode's order |
| Encoders.JsonOverInner | src/Encoders/Json.js:29-56 | when the inner encoder round-trips the JSON text, `decode(encode(v)) == parse(stringify(v))` |
| Encoders.JsonNoOpRoundTrip | src/Encoders/Json.js:29-56 | over `NoOpEncoder`, `decode(encode(v)) == parse(stringify(v))` for truthy `v` with non-empty text |
| Encoders.JsonChain | src/Socket.js:103 | a chain of `JsonEncoder`s over `NoOpEncoder` is well-formed (each link passes `Implements`) |
| Encoders.JsonChainEncodesToText | src/Encoders/Json.js:50-56 | under the JSON round trip, encoding a JSON-safe truthy value through one or more JSON links yields non-empty text |
| Encoders.JsonChainRoundTrip | src/Encoders/Json.js:29-56 | under the JSON round trip, nested JSON encoders decode what they encoded back to the value |
| Envelopers.Implements | src/Envelopers/common.js:18-22 | the definition of the interface test (not null or undefined, truthy function-valued `wrap` and `unwrap`); its properties are stated by `Envelopers.ImplementsIff`, `Envelopers.ImplementsRejectsNullish` and `Envelopers.ModelledEnvelopersImplement` |
| Envelopers.ImplementsIff | src/Envelopers/common.js:18-22 | a value implements the enveloper interface exactly when it is an object owning function-valued `wrap` and `unwrap` |
| Envelopers.ImplementsRejectsNullish | src/Envelopers/common.js:19 | null and undefined never implement the interface |
| Envelopers.ModelledEnvelopersImplement | src/Envelopers/common.js:6-22 | `NoOpEnveloper`, a default `Enveloper` and every `IdEnveloper` pass `Implements` |
| Envelopers.NewIdEnveloper | src/Envelopers/Id.js:38-42 | the inner enveloper is the given one when it passes `Implements`, else `NoOpEnveloper`; `id` and `data` default to "id" and "data"; a non-array `elevate` becomes `[]` |
| Envelopers.ElevatedIff | src/Envelopers/Id.js:77-81 | a name is elevated exactly when some entry of `elevate`, not `===` the data property, names a property the source owns |
| Envelopers.ElevatedOwnedBy | src/Envelopers/Id.js:78 | only properties the source object owns are elevated |
| Envelopers.ElevateInto | src/Envelopers/Id.js:77-81 | the `wrap` loop throws exactly when the source is null or undefined and some entry is not the data property; otherwise it copies every elevated own property of the source into the result |
| Envelopers.ElevateOnto | src/Envelopers/Id.js:54-58 | the `unwrap` loop writes every elevated own property of the envelope onto an object; onto a primitive it throws exactly when there is something to write; onto an array or a function it writes nothing (see Left out) |
| Envelopers.Wrap | src/Envelopers/Id.js:69-83 | the definition of `wrap` for each enveloper (`NoOpEnveloper` at src/Envelopers/common.js:7, the default at src/Envelopers/Enveloper.js:59, `IdEnveloper` here, a foreign one through the host); its properties are stated by `Envelopers.NoOpIsIdentity`, `Envelopers.DefaultKeepsTruthy`, `Envelopers.IdWrapShape`, `Envelopers.IdWrapThrows` and the round-trip lemmas |
| Envelopers.Unwrap | src/Envelopers/Id.js:50-60 | the definition of `unwrap` for each enveloper (`NoOpEnveloper` at src/Envelopers/common.js:8, the default at src/Envelopers/Enveloper.js:50, `IdEnveloper` here, a foreign one through the host); its properties are stated by `Envelopers.NoOpIsIdentity`, `Envelopers.DefaultKeepsTruthy`, `Envelopers.IdUnwrapShape`, `Envelopers.IdUnwrapOfNullish` and the round-trip lemmas |
| Envelopers.NoOpIsIdentity | src/Envelopers/common.js:6-9 | `NoOpEnveloper.wrap` and `unwrap` return their argument, falsy ones included |
| Envelopers.DefaultKeepsTruthy | src/Envelopers/Enveloper.js:50-59 | the default enveloper returns a truthy argument unchanged and null for every falsy one, in both directions |
| Envelopers.DefaultIdempotent | src/Envelopers/Enveloper.js:50-59 | applying the default `wrap` (or `unwrap`) twice equals applying it once |
| Envelopers.DefaultRoundTrip | src/Envelopers/Enveloper.js:50-59 | `unwrap(wrap(x)) == x` for every truthy `x` |
| Envelopers.IdWrapShape | src/Envelopers/Id.js:69-83 | when the id and data properties have different names and every `elevate` entry naming the data property is `===` to it (when they share a name the uuid replaces the data, src/Envelopers/Id.js:73-76, a case this lemma does not cover): `wrap` puts the inner-wrapped data under the data property and the fresh uuid under the id property unless an elevated own property of that name overwrote it; it copies every elevated own property, and the envelope has no other property |
| Envelopers.IdWrapThrows | src/Envelopers/Id.js:72-81 | `wrap` throws exactly when the inner `wrap` throws, or when it returned null or undefined and an entry other than the data property is tested with `hasOwnProperty` |
| Envelopers.IdUnwrapShape | src/Envelopers/Id.js:50-60 | `unwrap` starts from the truthy data property or a new empty object, writes the elevated own properties of the envelope onto it, and passes it to the inner `unwrap` |
| Envelopers.IdUnwrapOfNullish | src/Envelopers/Id.js:53 | `unwrap` of null or undefined throws |
| Envelopers.IdOverInner | src/Envelopers/Id.js:50-83 | when the inner enveloper round-trips `data` through an object, so does the `IdEnveloper`, provided the id and data properties differ, `elevate` never names the data property by another value, and an elevated id property is owned by the wrapped object |
| Envelopers.IdNoOpRoundTrip | src/Envelopers/Id.js:50-83 | with the pass-through inner enveloper, `unwrap(wrap(d)) == d` for every object `d` under the same conditions |
| Messages.DefaultCodec | src/Socket.js:101-104 | the default codec is one `JsonEncoder` over `NoOpEncoder`, well-formed, with an enveloper that passes `Implements` |
| Messages.Outbound | src/Socket.js:349-352 | the definition of the wrap-then-encode step of `funcs.send`: a throwing `wrap` ends it, else the envelope and its encoding; its properties are stated by `Messages.EchoAnswers`, `Messages.DefaultCodecEcho`, `Messages.IdCodecEcho` and, inside the socket, `Sockets.Socket.Transmit` |
| Messages.Inbound | src/Socket.js:317-337 | a message is unreadable exactly when the event is null or undefined, `unwrap` of the decoded value throws, or the decoded value is null or undefined; a readable message is a reply exactly when its decoded value has a truthy message id whose property name has a promise waiting, and the reply names that key; the value delivered either way is the result of `unwrap` on the decoded, non-nullish value |
| Messages.EchoAnswers | src/Socket.js:324-336 | when the codec undoes itself on a sent message, the echo resolves the promise named by the envelope's id if one waits, else it is ordinary data, and either way it delivers the original data |
| Messages.DefaultCodecEcho | src/Socket.js:347-353 | with the default codec and a JSON-safe value, the message sent is the value and its JSON text, and the echo answers under the value's own message id |
| Messages.IdCodecEcho | src/Socket.js:495-501 | with an `IdEnveloper` whose id property is the message id, the envelope carries the drawn uuid, and the echo resolves the promise stored under that uuid and delivers the original object |
| Messages.InboundAsWritten | src/Socket.js:327-332 | as written, a message is unreadable exactly when the corrected handler finds it unreadable or its truthy id names an Object.prototype property with nothing waiting; what it does not throw on is classified as the corrected handler classifies it: a reply exactly under a waiting key named by the truthy id, carrying the unwrapped value |
| Messages.AsWrittenDiffersOnInheritedIds | src/Socket.js:327-332 | the code as written differs from the corrected handler only on a truthy id naming an Object.prototype property with no promise waiting: it throws where ordinary data was meant |
| Messages.InheritedIdThrows | src/Socket.js:327-332 | the message `{"id": "toString"}` with nothing waiting throws as written and is delivered as data by the corrected handler |
| Messages.NothingWaitingMeansData | src/Socket.js:327-336 | with no promise waiting, every readable message reaches `ondata`; it is unreadable exactly when the event is nullish, `unwrap` throws or the decoded value is nullish |
| Sockets.EventIndex | src/Socket.js:13-21 | each event has its position in EVENTS_ALL |
| Sockets.MergeOptions | src/Socket.js:182-186 | the merged options hold the defaults' keys and the given ones; given values win, except that `plugins` becomes `[]` unless it is an array; defaults fill the rest (`buffer` true, `messageId` "id", `reconnect` true) |
| Sockets.ChosenCodec | src/Socket.js:182-185 | the `encoder` and `enveloper` options when given, else the defaults of src/Socket.js:103-104, a `JsonEncoder` over `NoOpEncoder` and a default `Enveloper`; with neither given, the default codec |
| Sockets.HandledFromMembers | src/Socket.js:214 | a source registers a handler for an event exactly when its property of that event's name is a function |
| Sockets.HandledFromOrdered | src/Socket.js:214 | one source's handlers are registered in the order of EVENTS_ALL |
| Sockets.PluginRegistrations | src/Socket.js:213-215 | registering the plugins succeeds exactly when none of them is null or undefined |
| Sockets.PluginRegistrationSources | src/Socket.js:213-215 | every plugin registration comes from one of the plugins |
| Sockets.PluginRegistrationMembers | src/Socket.js:213-215 | the plugins register exactly their function-valued handler properties |
| Sockets.PluginRegistrationOrder | src/Socket.js:213-215 | plugins register in array order, each one in the order of EVENTS_ALL |
| Sockets.Registrations | src/Socket.js:213-216 | the constructor's registrations succeed exactly when every plugin is defined |
| Sockets.RegistrationMembers | src/Socket.js:213-216 | one registration for each function-valued handler of a plugin or of the options, and no other |
| Sockets.RegistrationOrder | src/Socket.js:213-216 | all plugin handlers are registered before the options' handlers, plugins in array order, each source in the order of EVENTS_ALL |
| Sockets.Teardowns | src/Socket.js:388 | `destroy` calls only plugins whose `destroy` is a function, in array order |
| Sockets.TeardownsComplete | src/Socket.js:388 | every plugin whose `destroy` is a function is told, and no other |
| Sockets.ArmedMeansOpenSince | src/Socket.js:438-440 | while `ondisconnect` is armed, `onopen` fired after the last `ondisconnect` (or at all, if none fired) |
| Sockets.DisconnectOncePerOpen | src/Socket.js:304-309 | in a debounced log, `onopen` fired between any two `ondisconnect`s, and before the first |
| Sockets.IdleMeansFiredSince | src/Socket.js:258-273 | while no timer is pending, the timer fired after every time it was set |
| Sockets.OneTimerAtATime | src/Socket.js:257-258 | in a log where the timer is set only when none is pending, it fired between any two settings |
| Sockets.Socket.IdleIsValid | src/Socket.js:188-209 | the initial state (no attempt, timer, socket, buffered message, promise or signal; `stopped` false) satisfies the state-machine invariant |
| Sockets.Socket.constructor | src/Socket.js:180-209 | the options are merged; the encoder and enveloper default to `new Encoder.Json()` and `new Enveloper()`; the providers default to `() => null` and `() => 1000`; the state starts idle and valid |
| Sockets.Socket.Connect | src/Socket.js:396-403 | nothing changes while attempting or with a socket, even with no timer pending; otherwise `attempting` is set, `stopped` cleared, and exactly one WebSocket is created for `uriProvider(attempts)`, carrying the attempt closures |
| Sockets.Socket.ScheduleConnect | src/Socket.js:256-276 | nothing changes while a timer is pending or an attempt is under way; otherwise `attempts` grows by exactly 1, the retry provider gets the new count, `attempting` is set, and the timer and `onscheduled` get that delay; the log records one timer set, made while none was pending |
| Sockets.Socket.TimerFires | src/Socket.js:265-273 | the timer clears `attempting` and itself (logged as fired), then `connect()` starts an attempt unless there is a socket, in which case nothing else changes |
| Sockets.Socket.Stop | src/Socket.js:466-477 | with a socket, `stopped` is set, the socket gets the non-reconnecting callbacks and is closed; without one nothing changes |
| Sockets.Socket.Deliver | src/Socket.js:354-358 | the payload goes to the socket, or to the end of the buffer when `buffer === true`, or is dropped |
| Sockets.Socket.Transmit | src/Socket.js:347-362 | falsy data changes nothing; otherwise the data is wrapped (a throw ends the send) and encoded, then dispatched as `Dispatched` says; `Sound` is kept |
| Sockets.Socket.Dispatch | src/Socket.js:353-359 | the custom promise logic runs before delivery; it throws on a null or undefined envelope; plain `send` creates no promise |
| Sockets.Socket.Await | src/Socket.js:495-511 | a truthy message id registers a new promise under that id, replacing any earlier one; a falsy one creates a promise whose timer rejects it |
| Sockets.Socket.Send | src/Socket.js:520-522 | `send` is `funcs.send` with no custom logic |
| Sockets.Socket.Promise | src/Socket.js:492-513 | `promise` is `funcs.send` with the promise bookkeeping: falsy data sends nothing and creates no promise; a throwing `wrap`, or a null or undefined envelope, ends it; otherwise a promise waits under a truthy message id (or gets a rejection timer) and the payload goes out as `Deliver` says (sent, buffered when `buffer === true`, else dropped) |
| Sockets.Socket.RelayConnectSends | src/Socket.js:448 | what the `onconnect` handlers send goes straight to the new socket, never to the buffer; the buffer and promises are untouched, and the wrap counter (which picks later uuids) grows by the number of truthy messages |
| Sockets.Socket.Flush | src/Socket.js:455-458 | the buffer is sent to the socket oldest first and left empty |
| Sockets.Socket.Adopt | src/Socket.js:434-448 | the WebSocket becomes the socket with reconnecting closures, `ondisconnect` is armed (logged as an open), `attempting` is cleared, `attempts` reset, and `onopen` then `onconnect` fire |
| Sockets.Socket.HandleOpen | src/Socket.js:434-459 | on open, every time it is called: the socket is set, `ondisconnect` armed, the events fire, the connect handlers' messages go out, both providers are called with 0, the wrap counter grows by the number of truthy connect-handler messages, then the buffered messages go out in FIFO order and the buffer is empty; a handle the socket never created changes nothing |
| Sockets.Socket.Settle | src/Socket.js:448-458 | after the connect handlers' sends, both providers are called with 0 and the buffer is flushed in order; the wrap counter grows by the number of truthy connect-handler messages |
| Sockets.Socket.HandleMessage | src/Socket.js:317-337 | on any WebSocket the socket created, `onmessage` always fires first; a reply removes its promise and resolves it with the unwrapped value without firing `ondata`; other readable messages fire `ondata`; an unreadable one changes nothing else |
| Sockets.Socket.Gone | src/Socket.js:226-249 | the event fires, then `ondisconnect` once if armed (then disarmed, logged); with a socket, it is forgotten and the reconnecting variant schedules a retry unless a timer or attempt holds it back; with no socket (a second call) the handler throws after the event, at the `delete` of src/Socket.js:236, and schedules nothing |
| Sockets.Socket.HandleLoss | src/Socket.js:408-433 | each call of an attempt closure fires no event, clears `attempting` and schedules a retry, which a pending timer holds back (leaving `attempting` cleared and the timer pending); an opened WebSocket's closures run the gone handler it carries, reconnecting unless `stop()` switched them; a handle the socket never created changes nothing |
| Sockets.Socket.Destroy | src/Socket.js:385-390 | `stop()`, then the registry is destroyed, the plugins with a `destroy` function are told in order, and the socket is disposed of |
| Scenarios.StopThenClose | src/Socket.js:466-477 | stop then close: `onclose` and `ondisconnect` fire, the handler does not throw, and no retry is scheduled |
| Scenarios.CloseWithoutStop | src/Socket.js:241-246 | a close without `stop()` fires `ondisconnect` and schedules exactly one retry |
| Scenarios.ErrorThenClose | src/Socket.js:226-249 | error then close on an open socket: `onerror`, one `ondisconnect` and one scheduled retry, then `onclose` fires again and the second call throws before scheduling anything |
| Scenarios.AttemptFailsTwice | src/Socket.js:408-433 | an attempt that fails through both `onerror` and `onclose` schedules one retry and fires no loss event; afterwards `attempting` is cleared while the timer is still pending |
| Scenarios.ConnectDuringRetry | src/Socket.js:396-398 | after an attempt fails twice, `connect()` starts an attempt although the timer is pending, and the timer then starts another: three WebSockets, one retry counted, the timer gone and `attempting` set |
| Scenarios.BufferTwo | src/Socket.js:354-358 | two sends with no socket and `buffer === true` are buffered in the order sent |
| Scenarios.BufferDuringAttempt | src/Socket.js:354-358 | `connect()`, then two sends with `buffer === true`: the new WebSocket attempts and both messages wait in the buffer in the order sent |
| Scenarios.BufferedUntilOpen | src/Socket.js:455-458 | messages buffered during an attempt go out on open, oldest first, after the connect handlers' messages |

## Left out

- Numbers are integers. Fractions, `-0` and `Infinity` are not modelled; `NaN` has its own constructor.
- Property reads see own properties only; the prototype chain is not modelled. Strings and arrays own only `length`. Several reads of the code go through the prototype chain, and the model sees only own properties there: `typeof plugin[name]` when handlers are registered (src/Socket.js:214), `typeof plugin.destroy` (src/Socket.js:388), and `test.decode`/`test.encode` and `test.wrap`/`test.unwrap` in `Implements` (src/Encoders/common.js:20-21, src/Envelopers/common.js:20-21). A plugin, encoder or enveloper written with method syntax keeps those methods on its prototype; the model treats them as absent. The `promises[...]` lookup in `onmessage` is modelled by `Messages.InboundAsWritten` and its lemmas (see Findings).
- `JSON.stringify`, `JSON.parse`, `uuidv4` and the methods of encoders and envelopers this model has no code for are parameters (`Host`, `uuids`). Exceptions they throw are not modelled, and neither are JSON parse failures.
- The WebSocket, `setTimeout` and the `Events` registry from `@fantaptik/core` are not modelled. Their calls appear as trace effects. The library's `destroy` is one `Disposed` effect, with no effect on later calls.
- Sockets.Socket.HandleMessage: runs the corrected `Messages.Inbound`, not `Messages.InboundAsWritten`. As written (src/Socket.js:327-332), a message whose id names an Object.prototype property, with no promise waiting under it, throws where the class delivers it through `ondata` (see Findings).
- The ghost log `signals` is kept in step with `trace` by each method's contract. It is not derived from `trace` by a function, so "the signals are exactly the matching effects of the trace" is not a proved statement.
- Envelopers.ElevateOnto: a write onto an array or a function keeps the value unchanged (`SetProp`). In `unwrap`, when the data property is a truthy array or function, src/Envelopers/Id.js:56 adds the elevated properties to it and the inner `unwrap` sees them; the model drops them.
- `===` on objects and functions (`StrictEquals`, used at src/Envelopers/Id.js:55 and 78) compares contents, not identity. Two distinct objects with equal properties count as the same.
- A `Func` value owns no properties, so a function with `decode`/`encode` (or `wrap`/`unwrap`) properties attached fails `Implements` in the model, where JavaScript would accept it.
- The URI and retry providers are pure functions of the attempt count. The documented examples (src/Socket.js:45-52, 68-74) keep state that the calls with 0 in `onopen` reset. The model records each call as a `ProviderCalled` effect but does not model a provider's own state, or a provider that throws.
- Sockets.Socket.RelayConnectSends: only messages sent from `onconnect` handlers are modelled, as the parameter `connectSends`, and only as "each goes to the socket". The contract does not say which payload each one is. Re-entrant calls from other handlers (for example `stop()` from `onopen`) are not modelled.
- Sockets.Socket.HandleOpen: states the connect handlers' sends only as `RelayConnectSends` does.
- Sockets.Socket.constructor: requires every plugin to be neither null nor undefined. The source throws a TypeError at src/Socket.js:214 in that case; `Sockets.Registrations` models that outcome instead.
- The constructor does not record the registrations it makes. Their content and order are stated by `Sockets.Registrations` and its lemmas.
- `{ ...options }` of a value that is not an object copies no properties in the model; JavaScript would copy the indexed elements of a string or array. The `encoder`, `enveloper` and provider options are separate constructor parameters.
- The deferred `plugin.Socket = this` (src/Socket.js:376-379) is scheduling glue and is not modelled.
- The `stopped` getter is not modelled; it reads the `stopped` field.
- Plugin bodies (src/Plugins) are not modelled: `Log` only logs and `Plugin` is an interface of empty handlers. `console.log` calls are not modelled.
- In `Id.unwrap` the result aliases `data[dataProp]`, so the caller's object is mutated in place. The model builds a new map, and the aliasing is not captured.
- The static aliases `Encoder.Json`, `Encoder.Implements`, `Enveloper.Id` and `Enveloper.Implements` are not separate members: the model has one definition of each.
- The 200 ms rejection of a promise without a message id is the `RejectionTimer` effect. When the timer fires and the promise is rejected is not modelled.

## Findings

| source | as written | input that shows it | evidently intended | confidence | as-written member | corrected member |
|---|---|---|---|---|---|---|
| src/Socket.js:327-332 | `promises[decoded[messageId]]` reads a plain object. An id naming an Object.prototype property (such as "toString") passes the test with no promise waiting, and `promise.resolve(...)` on the inherited function then throws a TypeError. | the message `{"id": "toString"}`, with `messageId` "id", the pass-through codec and no promise waiting | a message with no waiting promise is delivered through `ondata` | not executed | Messages.InheritedIdThrows | Messages.NothingWaitingMeansData |
