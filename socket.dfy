/**
 * The `Socket` class of src/Socket.js: a WebSocket wrapper that buffers messages sent while
 * disconnected, reconnects on a timer chosen by a retry provider, debounces its
 * `ondisconnect` event and resolves promises by message id.
 *
 * The transport, the timers and the event registry are outside the model.  The socket
 * records what it asks of them in `trace`, in order, and the transport's callbacks are
 * methods the environment calls: `HandleOpen`, `HandleMessage`, `HandleLoss` (its
 * `onclose` and `onerror`) and `TimerFires`.  A WebSocket instance is a `Handle`, and
 * `modes` says which of the socket's callbacks it currently carries.
 */
module Sockets {
  import opened JsValues
  import Enc = Encoders
  import Env = Envelopers
  import opened Messages

  datatype Option<T> = None | Some(value: T)

  /** The event names of Socket.js:13-20. */
  datatype EventName =
    | EventClose | EventConnect | EventData | EventDisconnect
    | EventError | EventMessage | EventOpen | EventScheduled

  /** EVENTS_ALL, the order in which handlers are looked up. */
  const EventsAll: seq<EventName> :=
    [EventClose, EventConnect, EventData, EventDisconnect, EventError, EventMessage, EventOpen, EventScheduled]

  /** The property name of the handler for an event. */
  function HandlerName(e: EventName): string {
    match e
    case EventClose => "onclose"
    case EventConnect => "onconnect"
    case EventData => "ondata"
    case EventDisconnect => "ondisconnect"
    case EventError => "onerror"
    case EventMessage => "onmessage"
    case EventOpen => "onopen"
    case EventScheduled => "onscheduled"
  }

  /** The position of an event in EVENTS_ALL. */
  function EventIndex(e: EventName): (i: nat)
    ensures i < |EventsAll| && EventsAll[i] == e
  {
    match e
    case EventClose => 0
    case EventConnect => 1
    case EventData => 2
    case EventDisconnect => 3
    case EventError => 4
    case EventMessage => 5
    case EventOpen => 6
    case EventScheduled => 7
  }

  lemma IndexOfEvent(k: nat)
    requires k < |EventsAll|
    ensures EventIndex(EventsAll[k]) == k
  {
    if k == 0 {} else if k == 1 {} else if k == 2 {} else if k == 3 {}
    else if k == 4 {} else if k == 5 {} else if k == 6 {} else {}
  }

  // ---- Options ----

  /** The defaults of SocketOptions that are plain values. */
  const SocketDefaults: map<string, Value> :=
    map["buffer" := Bool(true), "messageId" := Str("id"), "plugins" := Arr([]), "reconnect" := Bool(true)]

  /** `{ ...SocketOptions, ...options }`, then `plugins` reset to `[]` unless it is an array. */
  function MergeOptions(options: Value): (merged: map<string, Value>)
    ensures merged.Keys == SocketDefaults.Keys + Spread(options).Keys
    ensures "buffer" in merged && "messageId" in merged && "plugins" in merged
    ensures forall k :: k in Spread(options) && k != "plugins" ==> merged[k] == Spread(options)[k]
    ensures forall k :: k in SocketDefaults && k !in Spread(options) ==> merged[k] == SocketDefaults[k]
    ensures merged["plugins"].Arr?
    ensures "plugins" in Spread(options) && Spread(options)["plugins"].Arr? ==>
      merged["plugins"] == Spread(options)["plugins"]
    ensures !("plugins" in Spread(options) && Spread(options)["plugins"].Arr?) ==> merged["plugins"] == Arr([])
  {
    var m := SocketDefaults + Spread(options);
    m["plugins" := if m["plugins"].Arr? then m["plugins"] else Arr([])]
  }

  /** The default `uriProvider`, `() => null`. */
  function NoUri(attempts: nat): Value {
    Null
  }

  /** The default `retryProvider`, `() => 1000`. */
  function FixedRetry(attempts: nat): Value {
    Num(1000)
  }

  /** The codec of a socket: its `encoder` and `enveloper` options, or those of `DefaultCodec`. */
  function ChosenCodec(encoder: Option<Enc.Encoder>, enveloper: Option<Env.Enveloper>, host: Host): (c: Codec)
    ensures c.host == host
    ensures c.encoder == (if encoder.Some? then encoder.value else Enc.JsonChain(1))
    ensures c.enveloper == (if enveloper.Some? then enveloper.value else Env.DefaultEnveloper)
    ensures encoder.None? && enveloper.None? ==> c == DefaultCodec(host)
  {
    var defaults := DefaultCodec(host);
    Codec(
      if encoder.Some? then encoder.value else defaults.encoder,
      if enveloper.Some? then enveloper.value else defaults.enveloper,
      host)
  }

  function PluginsOf(options: map<string, Value>): seq<Value> {
    if "plugins" in options && options["plugins"].Arr? then options["plugins"].items else []
  }

  // ---- Event registration ----

  /** Who a handler comes from: the plugin at an index of `plugins`, or the options themselves. */
  datatype Source = PluginAt(index: nat) | OptionHandler

  /** `events.register(name, ...)` for the handler of `source`. */
  datatype Registration = Registration(event: EventName, source: Source)

  /** The events of EVENTS_ALL, from position `k` on, whose handler property on `obj` is a function. */
  function HandledFrom(obj: Value, k: nat): (es: seq<EventName>)
    requires !Nullish(obj) && k <= |EventsAll|
    decreases |EventsAll| - k
  {
    if k == |EventsAll| then []
    else
      IndexOfEvent(k);
      var rest := HandledFrom(obj, k + 1);
      if IsFunction(Prop(obj, HandlerName(EventsAll[k]))) then [EventsAll[k]] + rest else rest
  }

  /** The events listed are exactly those, from position `k` of EVENTS_ALL on, that `obj` has a function handler for. */
  lemma {:induction false} HandledFromMembers(obj: Value, k: nat, e: EventName)
    requires !Nullish(obj) && k <= |EventsAll|
    ensures e in HandledFrom(obj, k) <==> k <= EventIndex(e) && IsFunction(Prop(obj, HandlerName(e)))
    decreases |EventsAll| - k
  {
    if k < |EventsAll| {
      HandledFromMembers(obj, k + 1, e);
      IndexOfEvent(k);
      var here := EventsAll[k];
      var rest := HandledFrom(obj, k + 1);
      assert EventIndex(e) == k <==> e == here;
      if IsFunction(Prop(obj, HandlerName(here))) {
        assert HandledFrom(obj, k) == [here] + rest;
      } else {
        assert HandledFrom(obj, k) == rest;
      }
    }
  }

  /** Events listed in the order of EVENTS_ALL, none before position `k`. */
  predicate Ascending(es: seq<EventName>, k: nat) {
    && (forall i :: 0 <= i < |es| ==> k <= EventIndex(es[i]))
    && (forall i, j :: 0 <= i < j < |es| ==> EventIndex(es[i]) < EventIndex(es[j]))
  }

  /** The handled events are listed in the order of EVENTS_ALL. */
  lemma {:induction false} HandledFromOrdered(obj: Value, k: nat)
    requires !Nullish(obj) && k <= |EventsAll|
    ensures Ascending(HandledFrom(obj, k), k)
    decreases |EventsAll| - k
  {
    if k < |EventsAll| {
      HandledFromOrdered(obj, k + 1);
      IndexOfEvent(k);
      var es, rest := HandledFrom(obj, k), HandledFrom(obj, k + 1);
      if IsFunction(Prop(obj, HandlerName(EventsAll[k]))) {
        assert es == [EventsAll[k]] + rest;
        forall i | 0 < i < |es| ensures es[i] == rest[i - 1] && k < EventIndex(es[i]) {
        }
      } else {
        assert es == rest;
      }
    }
  }

  function Tagged(es: seq<EventName>, s: Source): (rs: seq<Registration>)
    ensures |rs| == |es|
    ensures forall i :: 0 <= i < |rs| ==> rs[i] == Registration(es[i], s)
  {
    if es == [] then [] else [Registration(es[0], s)] + Tagged(es[1..], s)
  }

  function Rank(s: Source, pluginCount: nat): nat {
    match s
    case PluginAt(i) => i
    case OptionHandler => pluginCount
  }

  /** `a` is registered before `b`: an earlier plugin, the options last, and within one source the order of EVENTS_ALL. */
  predicate Before(a: Registration, b: Registration, pluginCount: nat) {
    || Rank(a.source, pluginCount) < Rank(b.source, pluginCount)
    || (a.source == b.source && EventIndex(a.event) < EventIndex(b.event))
  }

  /** `typeof source[name] === "function"` for the handler property of the registration's event. */
  predicate Registers(plugins: seq<Value>, options: map<string, Value>, x: Registration) {
    match x.source
    case PluginAt(i) => i < |plugins| && !Nullish(plugins[i]) && IsFunction(Prop(plugins[i], HandlerName(x.event)))
    case OptionHandler => IsFunction(Prop(Obj(options), HandlerName(x.event)))
  }

  /** No plugin is null or undefined. */
  predicate PluginsDefined(plugins: seq<Value>) {
    forall i :: 0 <= i < |plugins| ==> !Nullish(plugins[i])
  }

  /** The registrations of the plugins from index `from` on; `plugin[name]` throws on a null or undefined plugin. */
  function PluginRegistrations(plugins: seq<Value>, from: nat): (r: Completion<seq<Registration>>)
    requires from <= |plugins|
    ensures r.Normal? <==> forall i :: from <= i < |plugins| ==> !Nullish(plugins[i])
    decreases |plugins| - from
  {
    if from == |plugins| then Normal([])
    else if Nullish(plugins[from]) then TypeError
    else
      var rest := PluginRegistrations(plugins, from + 1);
      if rest.TypeError? then TypeError
      else Normal(Tagged(HandledFrom(plugins[from], 0), PluginAt(from)) + rest.value)
  }

  /** A tagged registration is one of the tagged events, from the tagging source. */
  lemma TaggedMembers(es: seq<EventName>, s: Source)
    ensures forall x :: x in Tagged(es, s) <==> x.source == s && x.event in es
  {
    var rs := Tagged(es, s);
    forall x: Registration | x.source == s && x.event in es ensures x in rs {
      var i :| 0 <= i < |es| && es[i] == x.event;
      assert rs[i] == x;
    }
  }

  /** Every registration of the plugins from index `from` on comes from one of those plugins. */
  lemma {:induction false} PluginRegistrationSources(plugins: seq<Value>, from: nat)
    requires from <= |plugins| && PluginRegistrations(plugins, from).Normal?
    ensures var rs := PluginRegistrations(plugins, from).value;
      forall i :: 0 <= i < |rs| ==> rs[i].source.PluginAt? && from <= rs[i].source.index < |plugins|
    decreases |plugins| - from
  {
    if from < |plugins| {
      PluginRegistrationSources(plugins, from + 1);
      var rest := PluginRegistrations(plugins, from + 1).value;
      var mine := Tagged(HandledFrom(plugins[from], 0), PluginAt(from));
      assert PluginRegistrations(plugins, from).value == mine + rest;
    }
  }

  /**
   * The plugins' registrations from index `from` on are those of their function-valued
   * handler properties.
   */
  lemma {:induction false} PluginRegistrationMembers(plugins: seq<Value>, from: nat)
    requires from <= |plugins| && PluginRegistrations(plugins, from).Normal?
    ensures var rs := PluginRegistrations(plugins, from).value;
      forall x: Registration :: x in rs <==> x.source.PluginAt? && from <= x.source.index && Registers(plugins, map[], x)
    decreases |plugins| - from
  {
    if from < |plugins| {
      PluginRegistrationMembers(plugins, from + 1);
      var rest := PluginRegistrations(plugins, from + 1).value;
      var es := HandledFrom(plugins[from], 0);
      var mine := Tagged(es, PluginAt(from));
      TaggedMembers(es, PluginAt(from));
      assert PluginRegistrations(plugins, from).value == mine + rest;
      forall x: Registration | x.source == PluginAt(from)
        ensures x in mine <==> Registers(plugins, map[], x)
      {
        HandledFromMembers(plugins[from], 0, x.event);
      }
    }
  }

  /** Registrations listed in the order they are made. */
  predicate InOrder(rs: seq<Registration>, pluginCount: nat) {
    forall i, j :: 0 <= i < j < |rs| ==> Before(rs[i], rs[j], pluginCount)
  }

  /** The events of one source, tagged in the order of EVENTS_ALL, are in order. */
  lemma TaggedInOrder(es: seq<EventName>, s: Source, pluginCount: nat)
    requires Ascending(es, 0)
    ensures InOrder(Tagged(es, s), pluginCount)
  {
  }

  /** Two ordered runs, the second from later sources only, make one ordered run. */
  lemma ConcatInOrder(a: seq<Registration>, b: seq<Registration>, pluginCount: nat)
    requires InOrder(a, pluginCount) && InOrder(b, pluginCount)
    requires forall i, j :: 0 <= i < |a| && 0 <= j < |b| ==>
      Rank(a[i].source, pluginCount) < Rank(b[j].source, pluginCount)
    ensures InOrder(a + b, pluginCount)
  {
    var rs := a + b;
    forall i, j | 0 <= i < j < |rs| ensures Before(rs[i], rs[j], pluginCount) {
      if j < |a| {
        assert rs[i] == a[i] && rs[j] == a[j];
      } else if i < |a| {
        assert rs[i] == a[i] && rs[j] == b[j - |a|];
      } else {
        assert rs[i] == b[i - |a|] && rs[j] == b[j - |a|];
      }
    }
  }

  /**
   * The plugins' registrations from index `from` on come in plugin order, and within one
   * plugin in the order of EVENTS_ALL.
   */
  lemma {:induction false} PluginRegistrationOrder(plugins: seq<Value>, from: nat)
    requires from <= |plugins| && PluginRegistrations(plugins, from).Normal?
    ensures InOrder(PluginRegistrations(plugins, from).value, |plugins|)
    decreases |plugins| - from
  {
    if from < |plugins| {
      PluginRegistrationOrder(plugins, from + 1);
      PluginRegistrationSources(plugins, from + 1);
      var rest := PluginRegistrations(plugins, from + 1).value;
      var es := HandledFrom(plugins[from], 0);
      var mine := Tagged(es, PluginAt(from));
      assert PluginRegistrations(plugins, from).value == mine + rest;
      HandledFromOrdered(plugins[from], 0);
      TaggedInOrder(es, PluginAt(from), |plugins|);
      assert forall i, j :: 0 <= i < |mine| && 0 <= j < |rest| ==>
        Rank(mine[i].source, |plugins|) < Rank(rest[j].source, |plugins|) by {
        forall i, j | 0 <= i < |mine| && 0 <= j < |rest|
          ensures Rank(mine[i].source, |plugins|) < Rank(rest[j].source, |plugins|)
        {
          assert mine[i].source == PluginAt(from);
          assert rest[j].source.PluginAt? && from < rest[j].source.index;
        }
      }
      ConcatInOrder(mine, rest, |plugins|);
    }
  }

  /**
   * The constructor's registrations (Socket.js:213-216): those of the plugins, then those of
   * the options; a null or undefined plugin makes the constructor throw.
   */
  function Registrations(plugins: seq<Value>, options: map<string, Value>): (r: Completion<seq<Registration>>)
    ensures r.Normal? <==> PluginsDefined(plugins)
  {
    var theirs := PluginRegistrations(plugins, 0);
    if theirs.TypeError? then TypeError
    else Normal(theirs.value + Tagged(HandledFrom(Obj(options), 0), OptionHandler))
  }

  /** One registration for every function-valued handler property and for nothing else. */
  lemma RegistrationMembers(plugins: seq<Value>, options: map<string, Value>)
    requires Registrations(plugins, options).Normal?
    ensures forall x: Registration :: x in Registrations(plugins, options).value <==> Registers(plugins, options, x)
  {
    var theirs := PluginRegistrations(plugins, 0).value;
    var es := HandledFrom(Obj(options), 0);
    var own := Tagged(es, OptionHandler);
    var rs := theirs + own;
    assert Registrations(plugins, options).value == rs;
    PluginRegistrationMembers(plugins, 0);
    TaggedMembers(es, OptionHandler);
    forall x: Registration ensures x in rs <==> Registers(plugins, options, x) {
      HandledFromMembers(Obj(options), 0, x.event);
      if x.source.PluginAt? {
        assert x !in own;
        assert Registers(plugins, options, x) <==> Registers(plugins, map[], x);
      } else {
        assert x !in theirs;
      }
    }
  }

  /** The plugins' registrations in array order, then the options' last, each source in the order of EVENTS_ALL. */
  lemma RegistrationOrder(plugins: seq<Value>, options: map<string, Value>)
    requires Registrations(plugins, options).Normal?
    ensures InOrder(Registrations(plugins, options).value, |plugins|)
  {
    var theirs := PluginRegistrations(plugins, 0).value;
    var es := HandledFrom(Obj(options), 0);
    var own := Tagged(es, OptionHandler);
    assert Registrations(plugins, options).value == theirs + own;
    PluginRegistrationSources(plugins, 0);
    PluginRegistrationOrder(plugins, 0);
    HandledFromOrdered(Obj(options), 0);
    TaggedInOrder(es, OptionHandler, |plugins|);
    ConcatInOrder(theirs, own, |plugins|);
  }

  // ---- The socket ----

  /** A WebSocket instance the socket created; the n-th one is `n`. */
  type Handle = nat

  /** The resolver pair of the n-th promise the socket handed out. */
  type Token = nat

  /**
   * Which of the socket's closures a WebSocket carries as `onclose` and `onerror`.  Its
   * `onmessage` is `funcs.onmessage` and its `onopen` the one `connect` gave it, for good:
   * the `delete socket.onX` statements of `failed` and of the gone handlers remove nothing,
   * because the event handler attributes of a WebSocket are accessor properties of its
   * prototype, not own properties of the instance.
   */
  datatype Mode =
    | Attempting         // the `failed` closures of `connect` (Socket.js:408-433)
    | Reconnecting       // `oncloseReconnect` and `onerrorReconnect`, set by `onopen`
    | NonReconnecting    // `onclose` and `onerror`, set by `stop`

  datatype Provider = UriProvider | RetryProvider

  /** What the socket asks of the world outside the model, in order. */
  datatype Effect =
    | Fired(event: EventName, arg: Value)          // `events.trigger(event, arg)`
    | ProviderCalled(provider: Provider, attempts: nat)
    | Created(handle: Handle, uri: Value)          // `new WebSocket(uri)`
    | TimerSet(delay: Value)                       // the reconnect `setTimeout`
    | TimerFired                                   // its callback runs
    | Sent(handle: Handle, payload: Value)         // `socket.send(payload)`
    | Closing(handle: Handle)                      // `socket.close()`
    | Resolved(token: Token, value: Value)         // `promise.resolve(value)`
    | RejectionTimer(token: Token)                 // the 200 ms `setTimeout` that rejects
    | RegistryDestroyed                            // `events.destroy()`
    | PluginDestroyed(index: nat)                  // `plugin.destroy()`
    | Disposed                                     // the library's `destroy(this, ...)`

  /** What `send` and `promise` return. */
  datatype SendResult =
    | NoPromise                 // `null` (and `send`'s `undefined`)
    | Awaiting(token: Token)    // a promise waiting for its reply
    | Rejecting(token: Token)   // a promise that rejects when its timer fires
    | Threw                     // a TypeError

  /** `socket.send` of each payload, in order. */
  function SentAll(h: Handle, payloads: seq<Value>): (effects: seq<Effect>)
    ensures |effects| == |payloads|
    ensures forall i :: 0 <= i < |payloads| ==> effects[i] == Sent(h, payloads[i])
  {
    if payloads == [] then [] else SentAll(h, payloads[..|payloads| - 1]) + [Sent(h, payloads[|payloads| - 1])]
  }

  /** How many of `vs` are truthy: the sends among them that reach `enveloper.wrap`. */
  function TruthyCount(vs: seq<Value>): (n: nat)
    ensures n <= |vs|
    ensures n == 0 <==> forall i :: 0 <= i < |vs| ==> !Truthy(vs[i])
  {
    if vs == [] then 0
    else TruthyCount(vs[..|vs| - 1]) + (if Truthy(vs[|vs| - 1]) then 1 else 0)
  }

  /** The `destroy()` calls of plugins before index `n`: those whose `destroy` is a function, in order. */
  function Teardowns(plugins: seq<Value>, n: nat): (effects: seq<Effect>)
    requires n <= |plugins| && PluginsDefined(plugins)
    ensures forall i :: 0 <= i < |effects| ==>
      effects[i].PluginDestroyed? && effects[i].index < n && IsFunction(Prop(plugins[effects[i].index], "destroy"))
    ensures forall i, j :: 0 <= i < j < |effects| ==> effects[i].index < effects[j].index
  {
    if n == 0 then []
    else
      var earlier := Teardowns(plugins, n - 1);
      if IsFunction(Prop(plugins[n - 1], "destroy")) then earlier + [PluginDestroyed(n - 1)] else earlier
  }

  /** Every plugin whose `destroy` is a function is told, and no other plugin. */
  lemma {:induction false} TeardownsComplete(plugins: seq<Value>, n: nat, k: nat)
    requires n <= |plugins| && PluginsDefined(plugins)
    ensures PluginDestroyed(k) in Teardowns(plugins, n) <==> k < n && IsFunction(Prop(plugins[k], "destroy"))
  {
    if n > 0 {
      TeardownsComplete(plugins, n - 1, k);
      var earlier := Teardowns(plugins, n - 1);
      if IsFunction(Prop(plugins[n - 1], "destroy")) {
        assert Teardowns(plugins, n) == earlier + [PluginDestroyed(n - 1)];
      }
    }
  }

  // ---- The debounced `ondisconnect` and the single timer ----

  /** The effects that arm or fire `ondisconnect` and that set or fire the reconnect timer. */
  datatype Signal =
    | Opened          // `Fired(EventOpen, _)`, which arms `ondisconnect`
    | Disconnected    // `Fired(EventDisconnect, _)`
    | TimerStarted    // `TimerSet(_)`
    | TimerEnded      // `TimerFired`

  /** The signals so far: `Then(earlier, s)` is `earlier` followed by `s`. */
  datatype Log = Start | Then(earlier: Log, latest: Signal)

  /** The signals of `log`, oldest first. */
  function Chronicle(log: Log): seq<Signal> {
    if log.Start? then [] else Chronicle(log.earlier) + [log.latest]
  }

  /** `ondisconnect` is armed after `log`: `onopen` fired after the last `ondisconnect`. */
  ghost function Armed(log: Log): bool {
    if log.Start? then false
    else if log.latest == Opened then true
    else if log.latest == Disconnected then false
    else Armed(log.earlier)
  }

  /** Every `ondisconnect` in `log` fired while armed. */
  ghost predicate Debounced(log: Log) {
    log.Then? ==> Debounced(log.earlier) && (log.latest == Disconnected ==> Armed(log.earlier))
  }

  /** The reconnect timer is pending after `log`: it was set after it last fired. */
  ghost function Pending(log: Log): bool {
    if log.Start? then false
    else if log.latest == TimerStarted then true
    else if log.latest == TimerEnded then false
    else Pending(log.earlier)
  }

  /** In `log` the timer was set only while none was pending, and fired only while one was. */
  ghost predicate OneTimer(log: Log) {
    log.Then? ==>
      && OneTimer(log.earlier)
      && (log.latest == TimerStarted ==> !Pending(log.earlier))
      && (log.latest == TimerEnded ==> Pending(log.earlier))
  }

  /** While armed, an `onopen` lies after every `ondisconnect` at `i` (and after the start, for `i == -1`). */
  lemma {:induction false} ArmedMeansOpenSince(log: Log, i: int)
    requires Armed(log) && -1 <= i < |Chronicle(log)| && (0 <= i ==> Chronicle(log)[i] == Disconnected)
    ensures exists k :: i < k < |Chronicle(log)| && Chronicle(log)[k] == Opened
  {
    var n := |Chronicle(log)| - 1;
    assert Chronicle(log)[n] == log.latest;
    if log.latest != Opened {
      ArmedMeansOpenSince(log.earlier, i);
      var k :| i < k < n && Chronicle(log.earlier)[k] == Opened;
      assert Chronicle(log)[k] == Chronicle(log.earlier)[k];
    }
  }

  /**
   * One `ondisconnect` per `onopen`: between an `ondisconnect` at `i` (or the start, for
   * `i == -1`) and the next one at `j`, `onopen` fired.
   */
  lemma {:induction false} DisconnectOncePerOpen(log: Log, i: int, j: nat)
    requires Debounced(log) && -1 <= i < j < |Chronicle(log)|
    requires (0 <= i ==> Chronicle(log)[i] == Disconnected) && Chronicle(log)[j] == Disconnected
    ensures exists k :: i < k < j && Chronicle(log)[k] == Opened
  {
    var before := Chronicle(log.earlier);
    var n := |before|;
    var k: int;
    if j == n {
      ArmedMeansOpenSince(log.earlier, i);
      k :| i < k < n && before[k] == Opened;
    } else {
      assert Chronicle(log)[j] == before[j];
      assert 0 <= i ==> Chronicle(log)[i] == before[i];
      DisconnectOncePerOpen(log.earlier, i, j);
      k :| i < k < j && before[k] == Opened;
    }
    assert Chronicle(log)[k] == before[k];
  }

  /** While no timer is pending, it fired after every time it was set. */
  lemma {:induction false} IdleMeansFiredSince(log: Log, i: nat)
    requires !Pending(log) && i < |Chronicle(log)| && Chronicle(log)[i] == TimerStarted
    ensures exists k :: i < k < |Chronicle(log)| && Chronicle(log)[k] == TimerEnded
  {
    var n := |Chronicle(log)| - 1;
    assert Chronicle(log)[n] == log.latest;
    if log.latest != TimerEnded {
      IdleMeansFiredSince(log.earlier, i);
      var k :| i < k < n && Chronicle(log.earlier)[k] == TimerEnded;
      assert Chronicle(log)[k] == Chronicle(log.earlier)[k];
    }
  }

  /** At most one pending timer: between two settings of the timer, it fired. */
  lemma {:induction false} OneTimerAtATime(log: Log, i: nat, j: nat)
    requires OneTimer(log) && i < j < |Chronicle(log)|
    requires Chronicle(log)[i] == TimerStarted && Chronicle(log)[j] == TimerStarted
    ensures exists k :: i < k < j && Chronicle(log)[k] == TimerEnded
  {
    var before := Chronicle(log.earlier);
    var n := |before|;
    var k: int;
    if j == n {
      IdleMeansFiredSince(log.earlier, i);
      k :| i < k < n && before[k] == TimerEnded;
    } else {
      assert Chronicle(log)[j] == before[j] && Chronicle(log)[i] == before[i];
      OneTimerAtATime(log.earlier, i, j);
      k :| i < k < j && before[k] == TimerEnded;
    }
    assert Chronicle(log)[k] == before[k];
  }

  class Socket {
    /** The merged options, and the plain values read from them. */
    const options: map<string, Value>
    const plugins: seq<Value>
    const buffer: Value
    const messageId: Value
    /** The `encoder` and `enveloper` options. */
    const codec: Codec
    const uriProvider: nat -> Value
    const retryProvider: nat -> Value
    /** `uuids(n)` is the identifier source of the n-th `enveloper.wrap` call. */
    const uuids: nat -> nat -> string

    var attempting: bool
    /** `attemptTimeout !== 0` */
    var timerPending: bool
    var attempts: nat
    var socket: Option<Handle>
    var stopped: bool
    var pending: seq<Value>
    /** The waiting promises, by the property name of their message id. */
    var promises: map<string, Token>
    /** `funcs.triggerOndisconnect` is `funcs.ondisconnect` rather than a function doing nothing. */
    var disconnectArmed: bool
    /** The closures each WebSocket the socket created carries. */
    var modes: map<Handle, Mode>
    var nextHandle: Handle
    var nextToken: Token
    var wraps: nat
    var trace: seq<Effect>
    /** The signals among the effects of `trace`, in the same order. */
    ghost var signals: Log

    /**
     * What holds between and within callbacks: every WebSocket was handed out; the socket
     * carries the closures of an opened connection; `ondisconnect` is armed exactly while
     * there is a socket; every promise token was handed out.
     */
    ghost predicate Coherent()
      reads this`modes, this`nextHandle, this`socket, this`disconnectArmed, this`promises, this`nextToken
    {
      && PluginsDefined(plugins)
      && (forall g :: g in modes ==> g < nextHandle)
      && (socket.Some? ==> socket.value in modes && modes[socket.value] != Attempting)
      && (disconnectArmed <==> socket.Some?)
      && (forall k :: k in promises ==> promises[k] < nextToken)
    }

    /**
     * The flags agree with the signals so far: `ondisconnect` is armed exactly when they
     * leave it armed, and never fired unarmed; the timer is pending exactly when they leave
     * it pending, was never set while pending and never fired unless pending.
     */
    ghost predicate Signalled()
      reads this`signals, this`disconnectArmed, this`timerPending
    {
      && Debounced(signals) && (disconnectArmed <==> Armed(signals))
      && OneTimer(signals) && (timerPending <==> Pending(signals))
    }

    ghost predicate Sound()
      reads this`modes, this`nextHandle, this`socket, this`disconnectArmed, this`promises, this`nextToken,
            this`signals, this`timerPending
    {
      Coherent() && Signalled()
    }

    /** A new socket: no WebSocket, attempt, timer, buffered message, promise or effect yet. */
    ghost predicate Idle()
      reads this
    {
      && !attempting && !timerPending && attempts == 0 && socket.None? && !stopped
      && pending == [] && promises == map[] && !disconnectArmed && modes == map[]
      && nextHandle == 0 && nextToken == 0 && wraps == 0 && trace == [] && signals == Start
    }

    /** A new socket with defined plugins is in a valid state. */
    lemma IdleIsValid()
      requires Idle() && PluginsDefined(plugins)
      ensures Valid()
    {
    }

    /** `Sound`, and nothing stays buffered while there is a socket. */
    ghost predicate Valid()
      reads this`modes, this`nextHandle, this`socket, this`disconnectArmed, this`promises, this`nextToken,
            this`signals, this`timerPending, this`pending
    {
      Sound() && (socket.Some? ==> pending == [])
    }

    /**
     * The effect of `connect()` when it acts, after the effects `before`: a WebSocket for the
     * provider's URI, carrying the attempt closures.
     */
    twostate predicate AttemptStarted(before: seq<Effect>)
      reads this`attempting, this`stopped, this`modes, this`nextHandle, this`trace, this`attempts
    {
      && attempting && !stopped
      && modes == old(modes)[old(nextHandle) := Attempting]
      && nextHandle == old(nextHandle) + 1
      && trace == old(trace) + before + [ProviderCalled(UriProvider, attempts),
                                         Created(old(nextHandle), uriProvider(attempts))]
    }

    /**
     * The effect of `scheduleConnect()` when it acts, after the effects `before`: one more
     * attempt counted, the retry provider asked for its delay, the timer set to exactly that
     * delay and `onscheduled` fired with it.
     */
    twostate predicate RetryScheduled(before: seq<Effect>, logged: Log)
      reads this`attempts, this`attempting, this`timerPending, this`trace, this`signals
    {
      && attempts == old(attempts) + 1 && attempting && timerPending && signals == Then(logged, TimerStarted)
      && trace == old(trace) + before + [ProviderCalled(RetryProvider, attempts),
                                         TimerSet(retryProvider(attempts)),
                                         Fired(EventScheduled, retryProvider(attempts))]
    }

    /**
     * The effect of a gone handler (`reconnecting` for the variant that schedules a retry)
     * that fired `event` with `ev` and `threw` or not: with a socket, `ondisconnect` fires
     * and the socket is forgotten, and then a retry is scheduled when the handler reconnects
     * and neither a timer nor an attempt stops it; without one, only the event fires and
     * the handler throws.
     */
    twostate predicate WentAway(event: EventName, ev: Value, reconnecting: bool, threw: bool)
      reads this`trace, this`disconnectArmed, this`socket, this`attempts, this`attempting, this`timerPending,
            this`signals
    {
      var retry := old(socket).Some? && reconnecting && !old(timerPending) && !old(attempting);
      && socket.None? && !disconnectArmed && threw == old(socket).None?
      && (old(socket).None? ==> trace == old(trace) + [Fired(event, ev)] && signals == old(signals))
      && (retry ==> RetryScheduled([Fired(event, ev), Fired(EventDisconnect, Null)], Then(old(signals), Disconnected)))
      && (old(socket).Some? && !retry ==>
            && trace == old(trace) + [Fired(event, ev), Fired(EventDisconnect, Null)]
            && signals == Then(old(signals), Disconnected))
      && (!retry ==> attempts == old(attempts) && attempting == old(attempting) && timerPending == old(timerPending))
    }

    /** `payload` went to the socket, or was buffered, or (no socket and `buffer` not `true`) dropped. */
    ghost predicate Delivered(before: seq<Effect>, buffered: seq<Value>, payload: Value)
      reads this`socket, this`trace, this`pending
    {
      match socket
      case Some(h) => trace == before + [Sent(h, payload)] && pending == buffered
      case None =>
        && trace == before
        && pending == (if buffer == Bool(true) then buffered + [payload] else buffered)
    }

    /**
     * The effect of `funcs.send(data, custom)` returning `r`, where `custom` is the promise
     * bookkeeping of `promise`: nothing for falsy data; otherwise `wrap` (a throw ends it)
     * and `encode`, then the rest as `Dispatched` says.
     */
    twostate predicate SendOutcome(data: Value, custom: bool, r: SendResult)
      reads this`wraps, this`trace, this`pending, this`promises, this`nextToken, this`socket
    {
      var out := Outbound(codec, data, uuids(old(wraps)));
      && (!Truthy(data) ==>
            && r == NoPromise && wraps == old(wraps) && trace == old(trace) && pending == old(pending)
            && promises == old(promises) && nextToken == old(nextToken))
      && (Truthy(data) ==> wraps == old(wraps) + 1)
      && (Truthy(data) && out.TypeError? ==>
            && r == Threw && trace == old(trace) && pending == old(pending)
            && promises == old(promises) && nextToken == old(nextToken))
      && (Truthy(data) && out.Normal? ==> Dispatched(out.value, custom, r))
    }

    /**
     * What `funcs.send` does with a wrapped and encoded message: with `custom`, a throw when
     * the envelope is null or undefined, else a promise waiting under a truthy message id or
     * one whose timer rejects it; then the delivery of the encoding.
     */
    twostate predicate Dispatched(out: Outgoing, custom: bool, r: SendResult)
      reads this`trace, this`pending, this`promises, this`nextToken, this`socket
    {
      && (custom && Nullish(out.wrapped) ==>
            && r == Threw && trace == old(trace) && pending == old(pending)
            && promises == old(promises) && nextToken == old(nextToken))
      && (!custom ==>
            && r == NoPromise && promises == old(promises) && nextToken == old(nextToken)
            && Delivered(old(trace), old(pending), out.encoded))
      && (custom && !Nullish(out.wrapped) ==>
            var id := Prop(out.wrapped, KeyOf(messageId));
            && nextToken == old(nextToken) + 1
            && (Truthy(id) ==>
                  && r == Awaiting(old(nextToken))
                  && promises == old(promises)[KeyOf(id) := old(nextToken)]
                  && Delivered(old(trace), old(pending), out.encoded))
            && (!Truthy(id) ==>
                  && r == Rejecting(old(nextToken)) && promises == old(promises)
                  && Delivered(old(trace) + [RejectionTimer(old(nextToken))], old(pending), out.encoded)))
    }

    /**
     * `new Socket(options)`.  The `encoder`, `enveloper`, `uriProvider` and `retryProvider`
     * options are the parameters of the same names (`None` when absent); `options` holds the
     * rest.  The constructor throws when a plugin is null or undefined, which the
     * precondition excludes.
     */
    constructor (opts: Value, encoder: Option<Enc.Encoder>, enveloper: Option<Env.Enveloper>, host: Host,
                 uri: Option<nat -> Value>, retry: Option<nat -> Value>, ids: nat -> nat -> string)
      requires PluginsDefined(PluginsOf(MergeOptions(opts)))
      ensures Valid()
      ensures options == MergeOptions(opts) && plugins == PluginsOf(options)
      ensures buffer == options["buffer"] && messageId == options["messageId"]
      ensures codec.host == host
      ensures codec.encoder == (if encoder.Some? then encoder.value else Enc.JsonChain(1))
      ensures codec.enveloper == (if enveloper.Some? then enveloper.value else Env.DefaultEnveloper)
      ensures encoder.None? && enveloper.None? ==> codec == DefaultCodec(host)
      ensures uri.Some? ==> uriProvider == uri.value
      ensures uri.None? ==> uriProvider == NoUri
      ensures retry.Some? ==> retryProvider == retry.value
      ensures retry.None? ==> retryProvider == FixedRetry
      ensures uuids == ids
      ensures Idle()
    {
      var merged := MergeOptions(opts);
      var ps := PluginsOf(merged);
      options := merged;
      plugins := ps;
      buffer := merged["buffer"];
      messageId := merged["messageId"];
      codec := ChosenCodec(encoder, enveloper, host);
      var uris: nat -> Value, delays: nat -> Value;
      match uri {
        case Some(f) => uris := f;
        case None => uris := NoUri;
      }
      match retry {
        case Some(f) => delays := f;
        case None => delays := FixedRetry;
      }
      uriProvider := uris;
      retryProvider := delays;
      uuids := ids;
      attempting := false;
      timerPending := false;
      attempts := 0;
      socket := None;
      stopped := false;
      pending := [];
      promises := map[];
      disconnectArmed := false;
      modes := map[];
      nextHandle := 0;
      nextToken := 0;
      wraps := 0;
      trace := [];
      signals := Start;
      new;
      assert Idle();
      IdleIsValid();
    }

    /**
     * `connect()`: a new attempt unless one is under way or there is a socket (Socket.js:398);
     * a pending timer does not hold it back.
     */
    method Connect()
      requires Valid()
      modifies this`attempting, this`stopped, this`trace, this`modes, this`nextHandle
      ensures Valid()
      ensures old(attempting) || old(socket).Some? ==> unchanged(this)
      ensures !old(attempting) && old(socket).None? ==> AttemptStarted([])
    {
      if !attempting && socket.None? {
        attempting := true;
        stopped := false;
        var uri := uriProvider(attempts);
        trace := trace + [ProviderCalled(UriProvider, attempts), Created(nextHandle, uri)];
        modes := modes[nextHandle := Attempting];
        nextHandle := nextHandle + 1;
      }
    }

    /** `funcs.scheduleConnect()`: a timed retry, unless a timer is set or an attempt is under way. */
    method ScheduleConnect()
      requires Valid()
      modifies this`attempts, this`attempting, this`timerPending, this`trace, this`signals
      ensures Valid()
      ensures old(timerPending) || old(attempting) ==> unchanged(this)
      ensures !old(timerPending) && !old(attempting) ==> RetryScheduled([], old(signals))
    {
      if !timerPending && !attempting {
        attempts := attempts + 1;
        var delay := retryProvider(attempts);
        trace := trace + [ProviderCalled(RetryProvider, attempts)];
        attempting := true;
        timerPending := true;
        trace := trace + [TimerSet(delay), Fired(EventScheduled, delay)];
        signals := Then(signals, TimerStarted);
      }
    }

    /**
     * The reconnect timer fires: the attempt flag and the timer are cleared and `connect()`
     * runs, which starts an attempt unless there is a socket.
     */
    method TimerFires()
      requires Valid() && timerPending
      modifies this`attempting, this`timerPending, this`stopped, this`trace, this`modes, this`nextHandle,
               this`signals
      ensures Valid() && !timerPending && signals == Then(old(signals), TimerEnded)
      ensures old(socket).Some? ==>
        && !attempting && trace == old(trace) + [TimerFired]
        && stopped == old(stopped) && modes == old(modes) && nextHandle == old(nextHandle)
      ensures old(socket).None? ==> AttemptStarted([TimerFired])
    {
      attempting := false;
      timerPending := false;
      trace := trace + [TimerFired];
      signals := Then(signals, TimerEnded);
      Connect();
    }

    /** `stop()`: with a socket, switch it to the closures that do not reconnect and close it; else nothing. */
    method Stop()
      requires Valid()
      modifies this`stopped, this`modes, this`trace
      ensures Valid()
      ensures old(socket).None? ==> unchanged(this)
      ensures old(socket).Some? ==>
        && stopped && modes == old(modes)[old(socket).value := NonReconnecting]
        && trace == old(trace) + [Closing(old(socket).value)]
    {
      if socket.Some? {
        stopped := true;
        modes := modes[socket.value := NonReconnecting];
        trace := trace + [Closing(socket.value)];
      }
    }

    /** The end of `funcs.send`: to the socket if there is one, else into the buffer when `buffer === true`. */
    method Deliver(payload: Value)
      requires Sound()
      modifies this`trace, this`pending
      ensures Sound()
      ensures Delivered(old(trace), old(pending), payload)
    {
      if socket.Some? {
        trace := trace + [Sent(socket.value, payload)];
      } else if buffer == Bool(true) {
        pending := pending + [payload];
      }
    }

    /** `funcs.send(data, custom)`; `custom` selects the bookkeeping of `promise`. */
    method Transmit(data: Value, custom: bool) returns (r: SendResult)
      requires Sound()
      modifies this`wraps, this`promises, this`nextToken, this`trace, this`pending
      ensures Sound()
      ensures SendOutcome(data, custom, r)
    {
      if !Truthy(data) {
        return NoPromise;
      }
      var out := Outbound(codec, data, uuids(wraps));
      wraps := wraps + 1;
      if out.TypeError? {
        return Threw;
      }
      r := Dispatch(out.value, custom);
    }

    /** The part of `funcs.send` after `wrap` and `encode`. */
    method Dispatch(out: Outgoing, custom: bool) returns (r: SendResult)
      requires Sound()
      modifies this`promises, this`nextToken, this`trace, this`pending
      ensures Sound()
      ensures Dispatched(out, custom, r)
    {
      r := NoPromise;
      if custom {
        if Nullish(out.wrapped) {
          return Threw;
        }
        r := Await(Prop(out.wrapped, KeyOf(messageId)));
      }
      Deliver(out.encoded);
    }

    /**
     * The promise bookkeeping of `funcs.send` for a message whose id is `id`: a truthy id
     * makes a promise that waits under that id; a falsy one, a promise whose timer rejects it.
     */
    method Await(id: Value) returns (r: SendResult)
      requires Sound()
      modifies this`promises, this`nextToken, this`trace
      ensures Sound()
      ensures nextToken == old(nextToken) + 1
      ensures Truthy(id) ==>
        r == Awaiting(old(nextToken)) && promises == old(promises)[KeyOf(id) := old(nextToken)] && trace == old(trace)
      ensures !Truthy(id) ==>
        r == Rejecting(old(nextToken)) && promises == old(promises) && trace == old(trace) + [RejectionTimer(old(nextToken))]
    {
      if Truthy(id) {
        promises := promises[KeyOf(id) := nextToken];
        r := Awaiting(nextToken);
      } else {
        trace := trace + [RejectionTimer(nextToken)];
        r := Rejecting(nextToken);
      }
      nextToken := nextToken + 1;
    }

    /** `send(data)` */
    method Send(data: Value) returns (r: SendResult)
      requires Valid()
      modifies this`wraps, this`promises, this`nextToken, this`trace, this`pending
      ensures Valid()
      ensures SendOutcome(data, false, r)
    {
      r := Transmit(data, false);
    }

    /** `promise(data)` */
    method Promise(data: Value) returns (r: SendResult)
      requires Valid()
      modifies this`wraps, this`promises, this`nextToken, this`trace, this`pending
      ensures Valid()
      ensures SendOutcome(data, true, r)
    {
      r := Transmit(data, true);
    }

    /** What the `onconnect` handlers send while `onopen` runs: each message goes straight to the socket. */
    method RelayConnectSends(connectSends: seq<Value>) returns (sent: seq<Effect>)
      requires Sound() && socket.Some?
      modifies this`wraps, this`promises, this`nextToken, this`trace, this`pending
      ensures Sound()
      ensures promises == old(promises) && nextToken == old(nextToken) && pending == old(pending)
      ensures wraps == old(wraps) + TruthyCount(connectSends)
      ensures |sent| <= |connectSends| && trace == old(trace) + sent
      ensures forall i :: 0 <= i < |sent| ==> sent[i].Sent? && sent[i].handle == socket.value
    {
      sent := [];
      for i := 0 to |connectSends|
        invariant Sound()
        invariant promises == old(promises) && nextToken == old(nextToken) && pending == old(pending)
        invariant wraps == old(wraps) + TruthyCount(connectSends[..i])
        invariant |sent| <= i && trace == old(trace) + sent
        invariant forall j :: 0 <= j < |sent| ==> sent[j].Sent? && sent[j].handle == socket.value
      {
        assert connectSends[..i + 1][..i] == connectSends[..i];
        var before := trace;
        var _ := Transmit(connectSends[i], false);
        sent := sent + trace[|before|..];
      }
      assert connectSends[..|connectSends|] == connectSends;
    }

    /** The loop of `onopen` that sends the buffered messages, oldest first, until none is left. */
    method Flush()
      requires Sound() && socket.Some?
      modifies this`trace, this`pending
      ensures Sound()
      ensures pending == [] && trace == old(trace) + SentAll(socket.value, old(pending))
    {
      ghost var k := 0;
      while |pending| > 0
        invariant Sound()
        invariant 0 <= k <= |old(pending)| && pending == old(pending)[k..]
        invariant trace == old(trace) + SentAll(socket.value, old(pending)[..k])
        decreases |pending|
      {
        assert old(pending)[..k + 1] == old(pending)[..k] + [pending[0]];
        trace := trace + [Sent(socket.value, pending[0])];
        pending := pending[1..];
        k := k + 1;
      }
      assert old(pending)[..k] == old(pending);
    }

    /** The start of `onopen`: WebSocket `h` becomes the socket, with closures that reconnect, and `onopen` and `onconnect` fire. */
    method Adopt(h: Handle, ev: Value)
      requires Valid() && h in modes
      modifies this`modes, this`disconnectArmed, this`socket, this`attempting, this`attempts, this`trace,
               this`signals
      ensures Sound() && signals == Then(old(signals), Opened)
      ensures socket == Some(h) && modes == old(modes)[h := Reconnecting] && disconnectArmed
      ensures !attempting && attempts == 0
      ensures trace == old(trace) + [Fired(EventOpen, ev), Fired(EventConnect, ev)]
    {
      modes := modes[h := Reconnecting];
      disconnectArmed := true;
      socket := Some(h);
      attempting := false;
      attempts := 0;
      trace := trace + [Fired(EventOpen, ev), Fired(EventConnect, ev)];
      signals := Then(signals, Opened);
    }

    /**
     * The `onopen` callback of WebSocket `h`: it becomes the socket, with closures that
     * reconnect; `onopen` and `onconnect` fire; what the `onconnect` handlers send
     * (`connectSends`) goes straight out; the providers are called with 0; then the buffered
     * messages go out in the order they were sent.
     */
    method HandleOpen(h: Handle, ev: Value, connectSends: seq<Value>) returns (handlerSends: seq<Effect>)
      requires Valid()
      modifies this`modes, this`disconnectArmed, this`socket, this`attempting, this`attempts,
               this`wraps, this`promises, this`nextToken, this`trace, this`pending, this`signals
      ensures Valid()
      ensures h !in old(modes) ==> unchanged(this) && handlerSends == []
      ensures h in old(modes) ==>
        && signals == Then(old(signals), Opened) && socket == Some(h) && modes == old(modes)[h := Reconnecting] && disconnectArmed
        && !attempting && attempts == 0 && pending == []
        && promises == old(promises) && nextToken == old(nextToken)
        && wraps == old(wraps) + TruthyCount(connectSends)
        && |handlerSends| <= |connectSends|
        && (forall i :: 0 <= i < |handlerSends| ==> handlerSends[i].Sent? && handlerSends[i].handle == h)
        && trace == old(trace) + [Fired(EventOpen, ev), Fired(EventConnect, ev)] + handlerSends
                    + [ProviderCalled(RetryProvider, 0), ProviderCalled(UriProvider, 0)]
                    + SentAll(h, old(pending))
    {
      handlerSends := [];
      if h !in modes {
        return;
      }
      Adopt(h, ev);
      handlerSends := Settle(connectSends);
    }

    /**
     * The rest of `onopen` once the socket is set: what the `onconnect` handlers send goes
     * straight out, the providers are called with 0, and the buffer is flushed.
     */
    method Settle(connectSends: seq<Value>) returns (handlerSends: seq<Effect>)
      requires Sound() && socket.Some?
      modifies this`wraps, this`promises, this`nextToken, this`trace, this`pending
      ensures Sound() && pending == []
      ensures promises == old(promises) && nextToken == old(nextToken)
      ensures wraps == old(wraps) + TruthyCount(connectSends)
      ensures |handlerSends| <= |connectSends|
      ensures forall i :: 0 <= i < |handlerSends| ==> handlerSends[i].Sent? && handlerSends[i].handle == socket.value
      ensures trace == old(trace) + handlerSends + [ProviderCalled(RetryProvider, 0), ProviderCalled(UriProvider, 0)]
                       + SentAll(socket.value, old(pending))
    {
      handlerSends := RelayConnectSends(connectSends);
      trace := trace + [ProviderCalled(RetryProvider, 0), ProviderCalled(UriProvider, 0)];
      Flush();
    }

    /**
     * The `onmessage` callback of WebSocket `h` (`funcs.onmessage`, the same for every
     * WebSocket): `onmessage` fires, then the message is a reply (its promise leaves
     * `promises` and resolves), ordinary data (`ondata` fires) or unreadable (a TypeError
     * ends the callback).
     */
    method HandleMessage(h: Handle, event: Value)
      requires Valid()
      modifies this`trace, this`promises
      ensures Valid()
      ensures h !in old(modes) ==> unchanged(this)
      ensures h in old(modes) ==>
        var r := Inbound(codec, messageId, old(promises).Keys, event);
        && (r.Unreadable? ==> trace == old(trace) + [Fired(EventMessage, event)] && promises == old(promises))
        && (r.Reply? ==>
              && trace == old(trace) + [Fired(EventMessage, event), Resolved(old(promises)[r.key], r.value)]
              && promises == old(promises) - {r.key})
        && (r.Unsolicited? ==>
              && trace == old(trace) + [Fired(EventMessage, event), Fired(EventData, r.value)]
              && promises == old(promises))
    {
      if h !in modes {
        return;
      }
      trace := trace + [Fired(EventMessage, event)];
      var r := Inbound(codec, messageId, promises.Keys, event);
      match r
      case Unreadable =>
      case Reply(key, value) =>
        var token := promises[key];
        promises := promises - {key};
        trace := trace + [Resolved(token, value)];
      case Unsolicited(value) =>
        trace := trace + [Fired(EventData, value)];
    }

    /**
     * A gone handler of `makeGoneHandler` (`reconnecting` for the variant that schedules a
     * retry): fire the event, then `ondisconnect` if armed (disarming it), and forget the
     * socket.  With no socket left to forget (the handler's second call, after `onerror`
     * then `onclose`) the `delete` that follows throws a TypeError (Socket.js:236), which
     * ends the handler; otherwise the reconnecting variant schedules a retry.
     */
    method Gone(event: EventName, ev: Value, reconnecting: bool) returns (threw: bool)
      requires Valid() && (event == EventClose || event == EventError)
      modifies this`trace, this`disconnectArmed, this`socket, this`attempts, this`attempting, this`timerPending,
               this`signals
      ensures Valid()
      ensures WentAway(event, ev, reconnecting, threw)
    {
      trace := trace + [Fired(event, ev)];
      if disconnectArmed {
        trace := trace + [Fired(EventDisconnect, Null)];
        signals := Then(signals, Disconnected);
        disconnectArmed := false;
      }
      threw := socket.None?;
      socket := None;
      if !threw && reconnecting {
        ScheduleConnect();
      }
    }

    /**
     * The `onclose` (`event == EventClose`) or `onerror` (`event == EventError`) callback of
     * WebSocket `h`, each time the WebSocket calls it: the closures of an attempt clear
     * `attempting` and schedule a retry, which a pending timer holds back; those of an opened
     * WebSocket are a gone handler, which reconnects unless `stop()` switched them.
     */
    method HandleLoss(h: Handle, event: EventName, ev: Value) returns (threw: bool)
      requires Valid() && (event == EventClose || event == EventError)
      modifies this`trace, this`disconnectArmed, this`socket, this`attempts, this`attempting, this`timerPending,
               this`signals
      ensures Valid()
      ensures h !in old(modes) ==> unchanged(this) && !threw
      ensures h in old(modes) && old(modes[h]) == Attempting ==>
        && !threw && socket == old(socket) && disconnectArmed == old(disconnectArmed)
        && (old(timerPending) ==>
              !attempting && timerPending && attempts == old(attempts) && trace == old(trace) && signals == old(signals))
        && (!old(timerPending) ==> RetryScheduled([], old(signals)))
      ensures h in old(modes) && old(modes[h]) != Attempting ==>
        WentAway(event, ev, old(modes[h]) == Reconnecting, threw)
    {
      threw := false;
      if h !in modes {
        return;
      }
      if modes[h] == Attempting {
        attempting := false;
        ScheduleConnect();
      } else {
        threw := Gone(event, ev, modes[h] == Reconnecting);
      }
    }

    /**
     * `destroy()`: `stop()`, then the registry is destroyed, every plugin whose `destroy` is
     * a function is told in array order, and the library's `destroy` disposes of the socket.
     */
    method Destroy()
      requires Valid()
      modifies this`stopped, this`modes, this`trace
      ensures Valid()
      ensures old(socket).Some? ==> stopped && modes == old(modes)[old(socket).value := NonReconnecting]
      ensures old(socket).None? ==> stopped == old(stopped) && modes == old(modes)
      ensures trace == old(trace) + (if old(socket).Some? then [Closing(old(socket).value)] else [])
                      + [RegistryDestroyed] + Teardowns(plugins, |plugins|) + [Disposed]
    {
      Stop();
      var told: seq<Effect> := [];
      for i := 0 to |plugins|
        invariant told == Teardowns(plugins, i)
      {
        if IsFunction(Prop(plugins[i], "destroy")) {
          told := told + [PluginDestroyed(i)];
        }
      }
      trace := trace + [RegistryDestroyed] + told + [Disposed];
    }
  }
}
