/**
 * Runs of a `Socket` through several of its callbacks, each stating what the whole run does.
 * They tie together the single-step contracts of `Sockets.Socket`.
 */
module Scenarios {
  import opened JsValues
  import opened Messages
  import opened Sockets

  /**
   * `stop()` on an open socket, then the close it asks for: `onclose` and `ondisconnect`
   * fire and nothing is scheduled.
   */
  method StopThenClose(s: Socket, h: Handle, ev: Value) returns (threw: bool)
    requires s.Valid() && s.socket == Some(h) && s.modes[h] == Reconnecting
    modifies s
    ensures s.Valid() && s.stopped && s.socket.None? && !threw
    ensures s.attempting == old(s.attempting) && s.timerPending == old(s.timerPending)
    ensures s.trace == old(s.trace) + [Closing(h), Fired(EventClose, ev), Fired(EventDisconnect, Null)]
  {
    s.Stop();
    threw := s.HandleLoss(h, EventClose, ev);
  }

  /** An open socket that closes without `stop()`: `ondisconnect` fires and a retry is scheduled. */
  method CloseWithoutStop(s: Socket, h: Handle, ev: Value) returns (threw: bool)
    requires s.Valid() && s.socket == Some(h) && s.modes[h] == Reconnecting
    requires !s.attempting && !s.timerPending
    modifies s
    ensures s.Valid() && s.socket.None? && s.attempting && s.timerPending && !threw
    ensures s.attempts == old(s.attempts) + 1
    ensures s.trace == old(s.trace) + [Fired(EventClose, ev), Fired(EventDisconnect, Null),
                                       ProviderCalled(RetryProvider, s.attempts),
                                       TimerSet(s.retryProvider(s.attempts)),
                                       Fired(EventScheduled, s.retryProvider(s.attempts))]
  {
    threw := s.HandleLoss(h, EventClose, ev);
  }

  /**
   * `onerror` then `onclose` on an open socket: `ondisconnect` fires once and one retry is
   * scheduled; the second call of the reconnecting gone handler fires `onclose`, finds no
   * socket and throws before it could schedule anything.
   */
  method ErrorThenClose(s: Socket, h: Handle, ev1: Value, ev2: Value) returns (threw1: bool, threw2: bool)
    requires s.Valid() && s.socket == Some(h) && s.modes[h] == Reconnecting
    requires !s.attempting && !s.timerPending
    modifies s
    ensures s.Valid() && s.socket.None? && s.attempting && s.timerPending
    ensures !threw1 && threw2
    ensures s.attempts == old(s.attempts) + 1
    ensures s.trace == old(s.trace) + [Fired(EventError, ev1), Fired(EventDisconnect, Null),
                                       ProviderCalled(RetryProvider, s.attempts),
                                       TimerSet(s.retryProvider(s.attempts)),
                                       Fired(EventScheduled, s.retryProvider(s.attempts)),
                                       Fired(EventClose, ev2)]
  {
    threw1 := s.HandleLoss(h, EventError, ev1);
    threw2 := s.HandleLoss(h, EventClose, ev2);
  }

  /**
   * A failed attempt reported by both `onerror` and `onclose`: one retry is scheduled, no
   * event of the socket fires, and the second `failed()` leaves the timer pending with
   * `attempting` cleared.
   */
  method AttemptFailsTwice(s: Socket, ev1: Value, ev2: Value)
    requires s.Valid() && !s.attempting && s.socket.None? && !s.timerPending
    modifies s
    ensures s.Valid() && s.socket.None? && !s.attempting && s.timerPending
    ensures s.attempts == old(s.attempts) + 1
    ensures s.nextHandle == old(s.nextHandle) + 1 && s.modes == old(s.modes)[old(s.nextHandle) := Attempting]
    ensures s.trace == old(s.trace) + [ProviderCalled(UriProvider, old(s.attempts)),
                                       Created(old(s.nextHandle), s.uriProvider(old(s.attempts))),
                                       ProviderCalled(RetryProvider, s.attempts),
                                       TimerSet(s.retryProvider(s.attempts)),
                                       Fired(EventScheduled, s.retryProvider(s.attempts))]
  {
    s.Connect();
    var h := s.nextHandle - 1;
    var _ := s.HandleLoss(h, EventError, ev1);
    var _ := s.HandleLoss(h, EventClose, ev2);
  }

  /**
   * After an attempt that failed through both callbacks, `connect()` is not held back by
   * the pending timer: it starts an attempt, and when the timer fires its `connect()`
   * starts another, so two WebSockets attempt at once.
   */
  method ConnectDuringRetry(s: Socket, ev1: Value, ev2: Value)
    requires s.Valid() && !s.attempting && s.socket.None? && !s.timerPending
    modifies s
    ensures s.Valid() && s.attempting && !s.timerPending && s.socket.None?
    ensures s.attempts == old(s.attempts) + 1
    ensures
      var n := old(s.nextHandle);
      && s.nextHandle == n + 3
      && s.modes == old(s.modes)[n := Attempting][n + 1 := Attempting][n + 2 := Attempting]
      && s.trace == old(s.trace) + [ProviderCalled(UriProvider, old(s.attempts)),
                                    Created(n, s.uriProvider(old(s.attempts))),
                                    ProviderCalled(RetryProvider, s.attempts),
                                    TimerSet(s.retryProvider(s.attempts)),
                                    Fired(EventScheduled, s.retryProvider(s.attempts)),
                                    ProviderCalled(UriProvider, s.attempts),
                                    Created(n + 1, s.uriProvider(s.attempts)),
                                    TimerFired,
                                    ProviderCalled(UriProvider, s.attempts),
                                    Created(n + 2, s.uriProvider(s.attempts))]
  {
    AttemptFailsTwice(s, ev1, ev2);
    s.Connect();
    s.TimerFires();
  }

  /**
   * Two messages sent while there is no socket and `buffer === true`: each one that the
   * enveloper wraps is buffered, in the order sent.
   */
  method BufferTwo(s: Socket, a: Value, b: Value)
    requires s.Valid() && s.socket.None? && s.pending == [] && s.buffer == Bool(true)
    requires Truthy(a) && Truthy(b)
    modifies s`wraps, s`promises, s`nextToken, s`trace, s`pending
    ensures s.Valid() && s.wraps == old(s.wraps) + 2
    ensures
      var x, y := Outbound(s.codec, a, s.uuids(old(s.wraps))), Outbound(s.codec, b, s.uuids(old(s.wraps) + 1));
      x.Normal? && y.Normal? ==> s.pending == [x.value.encoded, y.value.encoded]
  {
    var _ := s.Send(a);
    var _ := s.Send(b);
  }

  /**
   * `connect()` with no socket, then two sends with `buffer === true`: the new WebSocket
   * attempts and both messages wait in the buffer, in the order sent.
   */
  method BufferDuringAttempt(s: Socket, a: Value, b: Value) returns (h: Handle)
    requires s.Valid() && !s.attempting && s.socket.None? && s.pending == [] && s.buffer == Bool(true)
    requires Truthy(a) && Truthy(b)
    modifies s
    ensures s.Valid() && s.attempting && s.socket.None?
    ensures h == old(s.nextHandle) && h in s.modes && s.modes[h] == Attempting
    ensures
      var x, y := Outbound(s.codec, a, s.uuids(old(s.wraps))), Outbound(s.codec, b, s.uuids(old(s.wraps) + 1));
      x.Normal? && y.Normal? ==> s.pending == [x.value.encoded, y.value.encoded]
  {
    s.Connect();
    h := s.nextHandle - 1;
    BufferTwo(s, a, b);
  }

  /**
   * Two messages sent during an attempt with `buffer === true`, then the attempt opens: both
   * go out on the new socket, oldest first, after what the `onconnect` handlers sent.
   */
  method BufferedUntilOpen(s: Socket, a: Value, b: Value, ev: Value, connectSends: seq<Value>)
    returns (handlerSends: seq<Effect>)
    requires s.Valid() && !s.attempting && s.socket.None? && s.pending == [] && s.buffer == Bool(true)
    requires Truthy(a) && Truthy(b)
    modifies s
    ensures s.Valid() && s.socket == Some(old(s.nextHandle)) && s.pending == []
    ensures
      var x, y := Outbound(s.codec, a, s.uuids(old(s.wraps))), Outbound(s.codec, b, s.uuids(old(s.wraps) + 1));
      x.Normal? && y.Normal? ==>
        && 2 <= |s.trace|
        && s.trace[|s.trace| - 2..] == [Sent(s.socket.value, x.value.encoded), Sent(s.socket.value, y.value.encoded)]
  {
    var h := BufferDuringAttempt(s, a, b);
    ghost var buffered, before := s.pending, s.trace;
    handlerSends := s.HandleOpen(h, ev, connectSends);
    ghost var front := before + [Fired(EventOpen, ev), Fired(EventConnect, ev)] + handlerSends
                       + [ProviderCalled(RetryProvider, 0), ProviderCalled(UriProvider, 0)];
    EndsWith(front, SentAll(h, buffered));
  }

  /** The last `|tail|` elements of `front + tail` are `tail`. */
  lemma EndsWith<T>(front: seq<T>, tail: seq<T>)
    ensures (front + tail)[|front|..] == tail
  {
  }
}
