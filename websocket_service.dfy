/** The client connection manager and listener registry of
    src/services/websocketService.ts.

    The transport is abstract. `sockets` lists every socket the service has
    created, by creation order, with the ready state the transport reports for
    it; `ws` is the index of the one the service currently holds. A socket's
    handlers stay bound to the service after it is replaced or dropped, so the
    transport's events (open, message, close, error) are methods that name the
    socket they come from, and the firing of a scheduled reconnect timer is a
    method too. Callbacks have opaque identities; they run no code of their own
    here: delivering a message yields the invocations made, in order. */
module WebSocket {
  import opened Common
  import opened NotificationTypes

  const MaxReconnectAttempts: nat := 5
  /** Delay of every reconnect timer, in milliseconds. Time is not modelled:
      a timer fires whenever the environment calls FireReconnectTimer. */
  const ReconnectInterval: nat := 3000
  const NotificationTopic: string := "notification"
  const WildcardTopic: string := "*"

  /** `WebSocket.CONNECTING`, `OPEN`, `CLOSING`, `CLOSED`. */
  datatype ReadyState = Connecting | Open | Closing | Closed

  /** A listener function, compared by identity (`===`), as `indexOf` does. */
  datatype Callback = Callback(identity: nat)

  /** What the unsubscribe closure returned by `subscribe` captures. */
  datatype Subscription = Subscription(topic: string, callback: Callback)

  /** One call `callback(data)` made while notifying listeners. */
  datatype Invocation = Invocation(callback: Callback, data: Notification)

  /** A payload handed to `send` on the socket with that index. */
  datatype Frame = Frame(socket: nat, data: string)

  /** `listeners.get(topic)`, with a missing entry read as no listeners. */
  function ListenersFor(listeners: map<string, seq<Callback>>, topic: string): seq<Callback>
  {
    if topic in listeners then listeners[topic] else []
  }

  /** `Array.prototype.indexOf` by identity: the first position of `x`, or -1. */
  function IndexOf(s: seq<Callback>, x: Callback): (i: int)
    ensures -1 <= i < |s|
    ensures i == -1 <==> x !in s
    ensures 0 <= i ==> s[i] == x && x !in s[..i]
  {
    if |s| == 0 then -1
    else if s[0] == x then 0
    else
      var j := IndexOf(s[1..], x);
      if j == -1 then -1
      else
        assert s[..j + 1] == [s[0]] + s[1..][..j];
        j + 1
  }

  /** The list with its first `x` taken out: exactly one occurrence goes when
      there is one, and nothing else changes. */
  function RemoveFirst(s: seq<Callback>, x: Callback): (r: seq<Callback>)
    ensures x !in s ==> r == s
    ensures x in s ==> |r| == |s| - 1
  {
    if |s| == 0 then []
    else if s[0] == x then s[1..]
    else [s[0]] + RemoveFirst(s[1..], x)
  }

  /** Exactly one occurrence of `x` goes, when there is one, and no other
      callback is lost or gained. */
  lemma {:induction false} RemoveFirstMultiset(s: seq<Callback>, x: Callback)
    ensures multiset(RemoveFirst(s, x)) == multiset(s) - multiset{x}
  {
    if |s| > 0 {
      assert s == [s[0]] + s[1..];
      if s[0] != x {
        RemoveFirstMultiset(s[1..], x);
      }
    }
  }

  /** What the unsubscribe closure does, `splice(indexOf(x), 1)` on a list
      that holds `x`, is RemoveFirst. */
  lemma {:induction false} SpliceAtIndexOf(s: seq<Callback>, x: Callback)
    requires x in s
    ensures s[..IndexOf(s, x)] + s[IndexOf(s, x) + 1..] == RemoveFirst(s, x)
  {
    if s[0] != x {
      var t := s[1..];
      assert x in t;
      SpliceAtIndexOf(t, x);
      var j := IndexOf(t, x);
      assert IndexOf(s, x) == j + 1;
      calc {
        s[..j + 1] + s[j + 2..];
        { assert s[..j + 1] == [s[0]] + t[..j]; assert s[j + 2..] == t[j + 1..]; }
        [s[0]] + (t[..j] + t[j + 1..]);
        [s[0]] + RemoveFirst(t, x);
      }
    }
  }

  /** All callbacks of `s` other than `x`, in their order. */
  function Without(s: seq<Callback>, x: Callback): seq<Callback>
  {
    if |s| == 0 then []
    else if s[0] == x then Without(s[1..], x)
    else [s[0]] + Without(s[1..], x)
  }

  /** Removing the first `x` keeps every other callback, in its order. */
  lemma {:induction false} RemoveFirstKeepsOthersInOrder(s: seq<Callback>, x: Callback)
    ensures Without(RemoveFirst(s, x), x) == Without(s, x)
  {
    if |s| > 0 && s[0] != x {
      RemoveFirstKeepsOthersInOrder(s[1..], x);
      var r := RemoveFirst(s[1..], x);
      assert ([s[0]] + r)[1..] == r;
    }
  }

  /** Subscribing `x` and calling the returned unsubscribe restores the list
      when `x` was not yet there; when it was, the EARLIER occurrence goes and
      the one just added stays, since removal is by identity and first match. */
  lemma {:induction false} UnsubscribeAfterSubscribe(s: seq<Callback>, x: Callback)
    ensures RemoveFirst(s + [x], x) == if x in s then RemoveFirst(s, x) + [x] else s
  {
    if |s| == 0 {
      assert s + [x] == [x];
    } else {
      var t := s[1..];
      assert (s + [x])[0] == s[0];
      assert (s + [x])[1..] == t + [x];
      if s[0] != x {
        UnsubscribeAfterSubscribe(t, x);
        assert x in s <==> x in t;
        if x in t {
          assert RemoveFirst(s, x) + [x] == [s[0]] + (RemoveFirst(t, x) + [x]);
        } else {
          assert s == [s[0]] + t;
        }
      }
    }
  }

  /** The calls `forEach((callback) => callback(data))` makes over `order`. */
  function Deliveries(order: seq<Callback>, data: Notification): seq<Invocation>
  {
    seq(|order|, i requires 0 <= i < |order| => Invocation(order[i], data))
  }

  /** The close event's effect on a socket that is asked to `close()`: a
      connecting or open socket starts closing; otherwise nothing happens. */
  function AfterCloseRequest(state: ReadyState): ReadyState
  {
    if state == Connecting || state == Open then Closing else state
  }

  class WebSocketService {
    var ws: Option<nat>
    var sockets: seq<ReadyState>
    var listeners: map<string, seq<Callback>>
    var reconnectAttempts: nat
    var isConnecting: bool
    /** Reconnect timers set by `setTimeout` that have not fired yet; all of
        them run the same closure, `connect()`. */
    var pendingReconnects: nat
    /** What the transport was given by `send`. */
    var sent: seq<Frame>
    /** Reconnects scheduled since the last open event. */
    ghost var reconnectsSinceOpen: nat

    ghost predicate Valid()
      reads this
    {
      && reconnectsSinceOpen <= reconnectAttempts <= MaxReconnectAttempts
      && (ws.Some? ==> ws.value < |sockets|)
    }

    constructor ()
      ensures Valid()
      ensures ws.None? && sockets == [] && listeners == map[]
      ensures reconnectAttempts == 0 && !isConnecting && pendingReconnects == 0 && sent == []
    {
      ws := None;
      sockets := [];
      listeners := map[];
      reconnectAttempts := 0;
      isConnecting := false;
      pendingReconnects := 0;
      sent := [];
      reconnectsSinceOpen := 0;
    }

    /** `isConnected()`: the service holds a socket and it is open. A socket
        it no longer holds does not count, open or not. */
    function IsConnected(): (r: bool)
      reads this
      ensures r ==> ws.Some? && ws.value < |sockets| && sockets[ws.value] == Open
      ensures Valid() && ws.Some? && sockets[ws.value] == Open ==> r
      ensures ws.None? ==> !r
    {
      ws.Some? && ws.value < |sockets| && sockets[ws.value] == Open
    }

    /** The order in which a message on `eventType` reaches listeners. */
    function DeliveryOrder(eventType: string): seq<Callback>
      reads this
    {
      ListenersFor(listeners, eventType) + ListenersFor(listeners, WildcardTopic)
    }

    /** No reconnect timer is pending and a close event schedules none. */
    predicate NoAutoReconnect()
      reads this
    {
      reconnectAttempts == MaxReconnectAttempts && pendingReconnects == 0
    }

    /** `connect()`. Nothing happens while the held socket is open or an
        attempt is under way. Otherwise a new socket is created in the
        connecting state and held, unless the `WebSocket` constructor throws
        (`transportThrows`), in which case only `isConnecting` is reset. */
    method Connect(transportThrows: bool)
      requires Valid()
      modifies this`ws, this`sockets, this`isConnecting
      ensures Valid()
      ensures IsConnected() == old(IsConnected())
      ensures old(IsConnected() || isConnecting) ==>
        ws == old(ws) && sockets == old(sockets) && isConnecting == old(isConnecting)
      ensures !old(IsConnected() || isConnecting) && transportThrows ==>
        ws == old(ws) && sockets == old(sockets) && !isConnecting
      ensures !old(IsConnected() || isConnecting) && !transportThrows ==>
        sockets == old(sockets) + [Connecting] && ws == Some(old(|sockets|)) && isConnecting
    {
      if (ws.Some? && sockets[ws.value] == Open) || isConnecting {
        return;
      }
      isConnecting := true;
      if transportThrows {
        isConnecting := false;
      } else {
        sockets := sockets + [Connecting];
        ws := Some(|sockets| - 1);
      }
    }

    /** `handleReconnect()`: below the budget, count the attempt and set a
        timer that will call `connect()`; at the budget, do nothing. */
    method HandleReconnect()
      requires Valid()
      modifies this`reconnectAttempts, this`pendingReconnects, this`reconnectsSinceOpen
      ensures Valid()
      ensures old(reconnectAttempts) < MaxReconnectAttempts ==>
        && reconnectAttempts == old(reconnectAttempts) + 1
        && pendingReconnects == old(pendingReconnects) + 1
        && reconnectsSinceOpen == old(reconnectsSinceOpen) + 1
      ensures old(reconnectAttempts) >= MaxReconnectAttempts ==>
        && reconnectAttempts == old(reconnectAttempts)
        && pendingReconnects == old(pendingReconnects)
        && reconnectsSinceOpen == old(reconnectsSinceOpen)
    {
      if reconnectAttempts < MaxReconnectAttempts {
        reconnectAttempts := reconnectAttempts + 1;
        pendingReconnects := pendingReconnects + 1;
        reconnectsSinceOpen := reconnectsSinceOpen + 1;
      }
    }

    /** The `onclose` handler. */
    method HandleClose()
      requires Valid()
      modifies this`isConnecting, this`reconnectAttempts, this`pendingReconnects, this`reconnectsSinceOpen
      ensures Valid()
      ensures !isConnecting
      ensures old(reconnectAttempts) < MaxReconnectAttempts ==>
        && reconnectAttempts == old(reconnectAttempts) + 1
        && pendingReconnects == old(pendingReconnects) + 1
        && reconnectsSinceOpen == old(reconnectsSinceOpen) + 1
      ensures old(reconnectAttempts) >= MaxReconnectAttempts ==>
        && reconnectAttempts == old(reconnectAttempts)
        && pendingReconnects == old(pendingReconnects)
        && reconnectsSinceOpen == old(reconnectsSinceOpen)
    {
      isConnecting := false;
      HandleReconnect();
    }

    /** The transport opens socket `id` and runs `onopen`: a successful open
        forgives earlier failures. */
    method TransportOpened(id: nat)
      requires Valid() && id < |sockets| && sockets[id] == Connecting
      modifies this`sockets, this`isConnecting, this`reconnectAttempts, this`reconnectsSinceOpen
      ensures Valid()
      ensures sockets == old(sockets)[id := Open]
      ensures IsConnected() <==> old(IsConnected()) || ws == Some(id)
      ensures !isConnecting && reconnectAttempts == 0 && reconnectsSinceOpen == 0
    {
      sockets := sockets[id := Open];
      isConnecting := false;
      reconnectAttempts := 0;
      reconnectsSinceOpen := 0;
    }

    /** The transport delivers a frame on socket `id` and runs `onmessage`.
        `decoded` is the record `JSON.parse` and the field reads produce,
        `None` when they throw (a syntax error, or a `null` payload). A decoded message goes to the "notification"
        listeners, then the "*" listeners, each list in order; a payload that
        fails to decode reaches nobody. The handler changes no field. */
    method TransportMessage(id: nat, decoded: Option<NotificationDTO>) returns (calls: seq<Invocation>)
      requires Valid() && id < |sockets| && sockets[id] == Open
      ensures decoded.None? ==> calls == []
      ensures decoded.Some? ==>
        calls == Deliveries(DeliveryOrder(NotificationTopic), MapNotificationDTOToNotification(decoded.value))
    {
      if decoded.None? {
        calls := [];
        return;
      }
      var notification := MapNotificationDTOToNotification(decoded.value);
      calls := NotifyListeners(NotificationTopic, notification);
    }

    /** The transport reports that socket `id` has closed and runs `onclose`. */
    method TransportClosed(id: nat)
      requires Valid() && id < |sockets| && sockets[id] != Closed
      modifies this`sockets, this`isConnecting, this`reconnectAttempts, this`pendingReconnects, this`reconnectsSinceOpen
      ensures Valid()
      ensures sockets == old(sockets)[id := Closed] && !isConnecting
      ensures IsConnected() ==> old(IsConnected())
      ensures old(reconnectAttempts) < MaxReconnectAttempts ==>
        && reconnectAttempts == old(reconnectAttempts) + 1
        && pendingReconnects == old(pendingReconnects) + 1
      ensures old(reconnectAttempts) >= MaxReconnectAttempts ==>
        reconnectAttempts == old(reconnectAttempts) && pendingReconnects == old(pendingReconnects)
      ensures old(NoAutoReconnect()) ==> NoAutoReconnect()
    {
      sockets := sockets[id := Closed];
      HandleClose();
    }

    /** The transport reports an error on socket `id` and runs `onerror`. Any
        close that follows is a separate event. */
    method TransportError(id: nat)
      requires Valid() && id < |sockets|
      modifies this`isConnecting
      ensures Valid() && !isConnecting
    {
      isConnecting := false;
    }

    /** One pending reconnect timer fires and calls `connect()`, whatever
        happened since it was set: nothing cancels it. */
    method FireReconnectTimer(transportThrows: bool)
      requires Valid() && pendingReconnects > 0
      modifies this`pendingReconnects, this`ws, this`sockets, this`isConnecting
      ensures Valid()
      ensures pendingReconnects == old(pendingReconnects) - 1
      ensures IsConnected() == old(IsConnected())
      ensures old(IsConnected() || isConnecting) ==>
        ws == old(ws) && sockets == old(sockets) && isConnecting == old(isConnecting)
      ensures !old(IsConnected() || isConnecting) && transportThrows ==>
        ws == old(ws) && sockets == old(sockets) && !isConnecting
      ensures !old(IsConnected() || isConnecting) && !transportThrows ==>
        sockets == old(sockets) + [Connecting] && ws == Some(old(|sockets|)) && isConnecting
    {
      pendingReconnects := pendingReconnects - 1;
      Connect(transportThrows);
    }

    /** `disconnect()` as written: `close()` the held socket, drop it, and only
        then set the counter to its maximum. `syncClose` is the test mock's
        `close()`, which marks the socket closed and runs `onclose` at once;
        the mock's held socket closes only here, so it is not closed yet.
        Otherwise the transport is a real WebSocket: `close()` only starts
        closing and the close event comes later through TransportClosed.
        Timers already pending are left in place, and with a synchronous close
        one more may be scheduled. */
    method Disconnect(syncClose: bool)
      requires Valid()
      requires syncClose && ws.Some? ==> sockets[ws.value] != Closed
      modifies this`ws, this`sockets, this`isConnecting, this`reconnectAttempts, this`pendingReconnects, this`reconnectsSinceOpen
      ensures Valid()
      ensures ws.None? && !IsConnected() && reconnectAttempts == MaxReconnectAttempts
      ensures old(ws).None? ==>
        sockets == old(sockets) && isConnecting == old(isConnecting) && pendingReconnects == old(pendingReconnects)
      ensures old(ws).Some? && syncClose ==>
        && sockets == old(sockets)[old(ws).value := Closed]
        && !isConnecting
        && pendingReconnects == old(pendingReconnects) + if old(reconnectAttempts) < MaxReconnectAttempts then 1 else 0
      ensures old(ws).Some? && !syncClose ==>
        && sockets == old(sockets)[old(ws).value := AfterCloseRequest(old(sockets)[old(ws).value])]
        && isConnecting == old(isConnecting)
        && pendingReconnects == old(pendingReconnects)
    {
      if ws.Some? {
        var id := ws.value;
        if syncClose {
          sockets := sockets[id := Closed];
          HandleClose();
        } else {
          sockets := sockets[id := AfterCloseRequest(sockets[id])];
        }
        ws := None;
      }
      reconnectAttempts := MaxReconnectAttempts;
    }

    /** `disconnect()` as its last line evidently intends: the counter is at its
        maximum before `close()` runs, and every pending reconnect timer is
        cancelled, so until a socket next opens nothing reconnects by itself. */
    method DisconnectCorrected(syncClose: bool)
      requires Valid()
      requires syncClose && ws.Some? ==> sockets[ws.value] != Closed
      modifies this`ws, this`sockets, this`isConnecting, this`reconnectAttempts, this`pendingReconnects, this`reconnectsSinceOpen
      ensures Valid()
      ensures ws.None? && !IsConnected() && NoAutoReconnect()
      ensures old(ws).None? ==> sockets == old(sockets) && isConnecting == old(isConnecting)
      ensures old(ws).Some? && syncClose ==> sockets == old(sockets)[old(ws).value := Closed] && !isConnecting
      ensures old(ws).Some? && !syncClose ==>
        sockets == old(sockets)[old(ws).value := AfterCloseRequest(old(sockets)[old(ws).value])]
        && isConnecting == old(isConnecting)
    {
      reconnectAttempts := MaxReconnectAttempts;
      pendingReconnects := 0;
      if ws.Some? {
        var id := ws.value;
        if syncClose {
          sockets := sockets[id := Closed];
          HandleClose();
        } else {
          sockets := sockets[id := AfterCloseRequest(sockets[id])];
        }
        ws := None;
      }
    }

    /** `subscribe(topic, callback)`: append `callback` to the topic's list,
        creating the list when the topic has none. Returns what the unsubscribe
        closure needs. */
    method Subscribe(topic: string, callback: Callback) returns (sub: Subscription)
      modifies this`listeners
      ensures sub == Subscription(topic, callback)
      ensures listeners == old(listeners)[topic := ListenersFor(old(listeners), topic) + [callback]]
    {
      if topic !in listeners {
        listeners := listeners[topic := []];
      }
      listeners := listeners[topic := listeners[topic] + [callback]];
      sub := Subscription(topic, callback);
    }

    /** The closure `subscribe` returns: remove the first occurrence of that
        very callback from its topic's list. A callback that is no longer there
        (the closure already ran) is a quiet no-op; an emptied list stays in
        the map. */
    method Unsubscribe(sub: Subscription)
      modifies this`listeners
      ensures listeners == if sub.topic in old(listeners)
        then old(listeners)[sub.topic := RemoveFirst(old(listeners)[sub.topic], sub.callback)]
        else old(listeners)
    {
      if sub.topic in listeners {
        var callbacks := listeners[sub.topic];
        var index := IndexOf(callbacks, sub.callback);
        if index > -1 {
          SpliceAtIndexOf(callbacks, sub.callback);
          listeners := listeners[sub.topic := callbacks[..index] + callbacks[index + 1..]];
        } else {
          assert listeners[sub.topic := RemoveFirst(callbacks, sub.callback)] == listeners;
        }
      }
    }

    /** `notifyListeners(eventType, data)`: the two `forEach` loops, the
        topic's listeners first, then the wildcard's. */
    method NotifyListeners(eventType: string, data: Notification) returns (calls: seq<Invocation>)
      ensures calls == Deliveries(DeliveryOrder(eventType), data)
    {
      calls := [];
      var callbacks := ListenersFor(listeners, eventType);
      var i := 0;
      while i < |callbacks|
        invariant 0 <= i <= |callbacks|
        invariant calls == Deliveries(callbacks[..i], data)
      {
        assert callbacks[..i + 1] == callbacks[..i] + [callbacks[i]];
        calls := calls + [Invocation(callbacks[i], data)];
        i := i + 1;
      }
      assert callbacks[..i] == callbacks;
      var wildcardCallbacks := ListenersFor(listeners, WildcardTopic);
      var j := 0;
      while j < |wildcardCallbacks|
        invariant 0 <= j <= |wildcardCallbacks|
        invariant calls == Deliveries(callbacks + wildcardCallbacks[..j], data)
      {
        assert callbacks + wildcardCallbacks[..j + 1] == callbacks + wildcardCallbacks[..j] + [wildcardCallbacks[j]];
        calls := calls + [Invocation(wildcardCallbacks[j], data)];
        j := j + 1;
      }
      assert wildcardCallbacks[..j] == wildcardCallbacks;
    }

    /** `send(data)`: hand the payload to the open socket, or drop it. */
    method Send(data: string)
      requires Valid()
      modifies this`sent
      ensures sent == if old(IsConnected()) then old(sent) + [Frame(ws.value, data)] else old(sent)
    {
      if IsConnected() {
        sent := sent + [Frame(ws.value, data)];
      }
    }
  }

  // Event sequences on a fresh service. Each method below drives the model
  // through one scenario and states its outcome.

  /** Two `connect()` calls while the first attempt is still connecting
      create one socket. */
  method ConnectTwiceCreatesOneSocket() returns (created: nat)
    ensures created == 1
  {
    var s := new WebSocketService();
    s.Connect(false);
    s.Connect(false);
    created := |s.sockets|;
  }

  /** Five unexpected closes with no open in between use up the budget: five
      reconnects are scheduled, the sixth close schedules none, and the
      service stays disconnected. */
  method ReconnectBudgetRunsOut() returns (scheduled: nat, pending: nat, connected: bool)
    ensures scheduled == 5 && pending == 0 && !connected
  {
    var s := new WebSocketService();
    s.Connect(false);
    var k := 0;
    while k < 5
      invariant 0 <= k <= 5 && s.Valid()
      invariant |s.sockets| == k + 1 && s.ws == Some(k) && s.sockets[k] == Connecting
      invariant s.reconnectAttempts == k && s.pendingReconnects == 0 && s.isConnecting
      modifies s
    {
      s.TransportClosed(k);
      s.FireReconnectTimer(false);
      k := k + 1;
    }
    scheduled := s.reconnectAttempts;
    s.TransportClosed(5);
    pending := s.pendingReconnects;
    connected := s.IsConnected();
  }

  /** Three failures, then an open, then one more failure: the counter was
      reset, so that failure is retried. */
  method OpenResetsBudget() returns (attempts: nat, pending: nat)
    ensures attempts == 1 && pending == 1
  {
    var s := new WebSocketService();
    s.Connect(false);
    s.TransportClosed(0);
    s.FireReconnectTimer(false);
    s.TransportClosed(1);
    s.FireReconnectTimer(false);
    s.TransportClosed(2);
    s.FireReconnectTimer(false);
    assert s.reconnectAttempts == 3;
    s.TransportOpened(3);
    s.TransportClosed(3);
    attempts := s.reconnectAttempts;
    pending := s.pendingReconnects;
  }

  /** With a `close()` that runs `onclose` synchronously, `disconnect()`
      still schedules a reconnect: the handler runs before the counter is set
      to its maximum. When that timer fires, a new socket is created and,
      once it opens, the service is connected again. */
  method SyncCloseDisconnectReconnects() returns (connected: bool)
    ensures connected
  {
    var s := new WebSocketService();
    s.Connect(false);
    s.Disconnect(true);
    assert !s.IsConnected() && s.pendingReconnects == 1;
    s.FireReconnectTimer(false);
    s.TransportOpened(1);
    connected := s.IsConnected();
  }

  /** A reconnect timer set by an unexpected close survives `disconnect()`:
      it fires, connects, and the service is connected again. */
  method PendingTimerSurvivesDisconnect() returns (connected: bool)
    ensures connected
  {
    var s := new WebSocketService();
    s.Connect(false);
    s.TransportOpened(0);
    s.TransportClosed(0);
    s.Disconnect(false);
    assert !s.IsConnected() && s.pendingReconnects == 1;
    s.FireReconnectTimer(false);
    s.TransportOpened(1);
    connected := s.IsConnected();
  }

  /** The same two event sequences with the corrected disconnect leave no
      timer that could fire, and the close events that follow schedule none. */
  method CorrectedDisconnectStaysDown() returns (pendingAfterSync: nat, pendingAfterDrop: nat)
    ensures pendingAfterSync == 0 && pendingAfterDrop == 0
  {
    var s := new WebSocketService();
    s.Connect(false);
    s.DisconnectCorrected(true);
    pendingAfterSync := s.pendingReconnects;

    var t := new WebSocketService();
    t.Connect(false);
    t.TransportOpened(0);
    t.TransportClosed(0);
    t.Connect(false);
    t.DisconnectCorrected(false);
    t.TransportClosed(1);
    pendingAfterDrop := t.pendingReconnects;
  }

  /** The corrected disconnect holds the service down only until a socket it
      dropped earlier opens: that socket's handlers still reset the counter
      and schedule reconnects. Here a close event on a dropped socket clears
      `isConnecting` while a newer socket is still connecting, so the next
      `connect()` drops that one too; after the corrected disconnect it opens,
      closes, and its reconnect timer connects the service again. */
  method CorrectedDisconnectOutlivedByDroppedSocket() returns (connected: bool)
    ensures connected
  {
    var s := new WebSocketService();
    s.Connect(false);
    s.TransportOpened(0);
    s.Disconnect(false);
    s.Connect(false);
    s.TransportClosed(0);
    s.Connect(false);
    assert |s.sockets| == 3 && s.sockets[1] == Connecting;
    s.DisconnectCorrected(false);
    s.TransportOpened(1);
    s.TransportClosed(1);
    s.FireReconnectTimer(false);
    s.TransportOpened(3);
    connected := s.IsConnected();
  }

  /** Connect/disconnect cycles, with the mock's synchronous close, end
      disconnected, and sending then transmits nothing. */
  method ConnectDisconnectCycles() returns (connected: bool, sent: seq<Frame>)
    ensures !connected && sent == []
  {
    var s := new WebSocketService();
    s.Connect(false);
    s.Disconnect(true);
    s.Connect(false);
    s.Disconnect(true);
    connected := s.IsConnected();
    s.Send("{\"type\":\"test\"}");
    sent := s.sent;
  }

  /** Removal from a list holding one callback twice, then once. */
  lemma RemoveFirstOfRepeated(cb: Callback)
    ensures RemoveFirst([cb, cb], cb) == [cb] && RemoveFirst([cb], cb) == []
  {
    assert [cb, cb][1..] == [cb];
  }

  /** Subscribing the same callback twice and cancelling one subscription
      leaves the other in place. */
  method CancelOneOfTwo() returns (remaining: seq<Callback>)
    ensures remaining == [Callback(7)]
  {
    var s := new WebSocketService();
    var cb := Callback(7);
    assert NotificationTopic !in s.listeners;
    var none: seq<Callback> := [];
    assert none + [cb] == [cb];
    var first := s.Subscribe(NotificationTopic, cb);
    assert s.listeners == map[NotificationTopic := [cb]];
    assert [cb] + [cb] == [cb, cb];
    var second := s.Subscribe(NotificationTopic, cb);
    assert s.listeners == map[NotificationTopic := [cb, cb]];
    RemoveFirstOfRepeated(cb);
    s.Unsubscribe(first);
    remaining := ListenersFor(s.listeners, NotificationTopic);
  }

  /** Calling the closure a second time, after it emptied the list, changes
      nothing. */
  method CancelTwice() returns (remaining: seq<Callback>)
    ensures remaining == []
  {
    var s := new WebSocketService();
    var cb := Callback(7);
    assert NotificationTopic !in s.listeners;
    var none: seq<Callback> := [];
    assert none + [cb] == [cb];
    var sub := s.Subscribe(NotificationTopic, cb);
    assert s.listeners == map[NotificationTopic := [cb]];
    RemoveFirstOfRepeated(cb);
    s.Unsubscribe(sub);
    assert s.listeners == map[NotificationTopic := []];
    s.Unsubscribe(sub);
    remaining := ListenersFor(s.listeners, NotificationTopic);
  }

  /** A subscriber to "notification" on an open connection is invoked once
      per decoded message, with the mapped notification; a payload that does
      not decode invokes nobody. */
  method DeliverToSubscriber(dto: NotificationDTO) returns (calls: seq<Invocation>, callsOnGarbage: seq<Invocation>)
    ensures calls == [Invocation(Callback(7), MapNotificationDTOToNotification(dto))]
    ensures callsOnGarbage == []
  {
    var s := new WebSocketService();
    var cb := Callback(7);
    assert NotificationTopic !in s.listeners;
    var none: seq<Callback> := [];
    assert none + [cb] == [cb];
    var sub := s.Subscribe(NotificationTopic, cb);
    assert s.listeners == map[NotificationTopic := [cb]];
    s.Connect(false);
    s.TransportOpened(0);
    assert s.DeliveryOrder(NotificationTopic) == [cb];
    calls := s.TransportMessage(0, Some(dto));
    callsOnGarbage := s.TransportMessage(0, None);
  }
}
