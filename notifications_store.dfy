/** The notifications store of src/stores/notificationsStore.ts: a record of
    state whose actions read it (`get()`) and overwrite some of its fields
    (`set()`). The store talks to one WebSocketService; its own
    `addNotification` action, which it registers as a listener, has the
    callback identity `addNotificationCallback`. */
module NotificationsStore {
  import opened Common
  import opened NotificationTypes
  import opened WebSocket

  /** What `partialize` keeps for persistent storage. */
  datatype PersistedState = PersistedState(notifications: seq<Notification>, notificationCount: int)

  class NotificationsStore {
    const service: WebSocketService
    const addNotificationCallback: Callback
    var notifications: seq<Notification>
    var notificationCount: int
    var isConnected: bool
    var isInitialized: bool
    var unsubscribe: Option<Subscription>
    /** The handle `setInterval` returned for the connection poll. */
    var connectionInterval: Option<nat>

    /** The count matches the list, and the store is initialized exactly when
        it holds its subscription and its interval. */
    ghost predicate Valid()
      reads this
    {
      && notificationCount == |notifications|
      && (isInitialized <==> unsubscribe.Some?)
      && (isInitialized <==> connectionInterval.Some?)
      && (unsubscribe.Some? ==> unsubscribe.value == Subscription(NotificationTopic, addNotificationCallback))
    }

    /** The initial state. */
    constructor (service: WebSocketService, addNotificationCallback: Callback)
      ensures Valid()
      ensures this.service == service && this.addNotificationCallback == addNotificationCallback
      ensures notifications == [] && notificationCount == 0
      ensures !isConnected && !isInitialized && unsubscribe.None? && connectionInterval.None?
    {
      this.service := service;
      this.addNotificationCallback := addNotificationCallback;
      notifications := [];
      notificationCount := 0;
      isConnected := false;
      isInitialized := false;
      unsubscribe := None;
      connectionInterval := None;
    }

    /** `partialize`: only the list and its count are persisted. */
    function Persisted(): (p: PersistedState)
      reads this
      ensures Valid() ==> p.notificationCount == |p.notifications|
    {
      PersistedState(notifications, notificationCount)
    }

    /** `addNotification(n)`: the newest notification goes first, the others
        keep their order, and the count follows the list. */
    method AddNotification(n: Notification)
      requires Valid()
      modifies this`notifications, this`notificationCount
      ensures Valid()
      ensures notifications == [n] + old(notifications)
      ensures notificationCount == old(notificationCount) + 1
    {
      var updatedNotifications := [n] + notifications;
      notifications := updatedNotifications;
      notificationCount := |updatedNotifications|;
    }

    /** `clearNotifications()`. The toast it shows is not modelled. */
    method ClearNotifications()
      requires Valid()
      modifies this`notifications, this`notificationCount
      ensures Valid()
      ensures notifications == [] && notificationCount == 0
    {
      notifications := [];
      notificationCount := 0;
    }

    /** `setIsConnected(connected)`. */
    method SetIsConnected(connected: bool)
      requires Valid()
      modifies this`isConnected
      ensures Valid() && isConnected == connected
      ensures Persisted() == old(Persisted())
    {
      isConnected := connected;
    }

    /** `checkConnection`: copy the service's connection state into the
        store. It runs once in `initializeWebSocket` and then on every tick of
        the connection interval. */
    method CheckConnection()
      requires Valid()
      modifies this`isConnected
      ensures Valid() && isConnected == service.IsConnected()
      ensures Persisted() == old(Persisted())
    {
      var connected := service.IsConnected();
      SetIsConnected(connected);
    }

    /** `initializeWebSocket()`. On an initialized store it does nothing.
        Otherwise it registers `addNotification` for "notification", polls the
        connection once, starts the interval (whose handle the scheduler
        supplies as `interval`) and records both. */
    method InitializeWebSocket(interval: nat)
      requires Valid()
      modifies this`isConnected, this`isInitialized, this`unsubscribe, this`connectionInterval, service`listeners
      ensures Valid()
      ensures Persisted() == old(Persisted())
      ensures old(isInitialized) ==>
        && service.listeners == old(service.listeners)
        && isConnected == old(isConnected) && isInitialized
        && unsubscribe == old(unsubscribe) && connectionInterval == old(connectionInterval)
      ensures !old(isInitialized) ==>
        && service.listeners == old(service.listeners)[NotificationTopic :=
             ListenersFor(old(service.listeners), NotificationTopic) + [addNotificationCallback]]
        && isConnected == service.IsConnected() && isInitialized
        && unsubscribe == Some(Subscription(NotificationTopic, addNotificationCallback))
        && connectionInterval == Some(interval)
    {
      if isInitialized {
        return;
      }
      var unsubscribeNotifications := service.Subscribe(NotificationTopic, addNotificationCallback);
      CheckConnection();
      isInitialized := true;
      unsubscribe := Some(unsubscribeNotifications);
      connectionInterval := Some(interval);
    }

    /** `cleanup()`: run the stored unsubscribe if there is one, stop the
        interval, and forget both. On a store that holds neither it changes
        nothing. */
    method Cleanup()
      requires Valid()
      modifies this`isInitialized, this`unsubscribe, this`connectionInterval, service`listeners
      ensures Valid()
      ensures Persisted() == old(Persisted())
      ensures !isInitialized && unsubscribe.None? && connectionInterval.None?
      ensures old(unsubscribe).None? ==> service.listeners == old(service.listeners)
      ensures old(unsubscribe).Some? ==>
        var listeners := old(service.listeners);
        service.listeners == if NotificationTopic in listeners
          then listeners[NotificationTopic := RemoveFirst(listeners[NotificationTopic], addNotificationCallback)]
          else listeners
    {
      if unsubscribe.Some? {
        service.Unsubscribe(unsubscribe.value);
      }
      isInitialized := false;
      unsubscribe := None;
      connectionInterval := None;
    }

    /** The service invoking listeners: each call aimed at this store's
        `addNotification` runs it, in call order; the others are someone
        else's listeners. */
    method Receive(calls: seq<Invocation>)
      requires Valid()
      modifies this`notifications, this`notificationCount
      ensures Valid()
      ensures notifications == AfterCalls(calls, addNotificationCallback, old(notifications))
    {
      var i := 0;
      while i < |calls|
        invariant 0 <= i <= |calls| && Valid()
        invariant AfterCalls(calls[i..], addNotificationCallback, notifications)
          == AfterCalls(calls, addNotificationCallback, old(notifications))
      {
        assert calls[i..][1..] == calls[i + 1..];
        if calls[i].callback == addNotificationCallback {
          AddNotification(calls[i].data);
        }
        i := i + 1;
      }
    }
  }

  /** The list after `addNotification` ran for each call aimed at `cb`. */
  function AfterCalls(calls: seq<Invocation>, cb: Callback, ns: seq<Notification>): seq<Notification>
  {
    if |calls| == 0 then ns
    else AfterCalls(calls[1..], cb, if calls[0].callback == cb then [calls[0].data] + ns else ns)
  }

  /** Calls aimed at the store are prepended newest first, in front of what
      it held, and the others are ignored. */
  lemma {:induction false} AfterCallsPrepends(calls: seq<Invocation>, cb: Callback, ns: seq<Notification>)
    ensures AfterCalls(calls, cb, ns) == Reversed(DataFor(calls, cb)) + ns
  {
    if |calls| > 0 {
      var c := calls[0];
      var ns' := if c.callback == cb then [c.data] + ns else ns;
      AfterCallsPrepends(calls[1..], cb, ns');
      DataForCons(c, calls[1..], cb);
      assert calls == [c] + calls[1..];
      var rest := DataFor(calls[1..], cb);
      if c.callback == cb {
        assert DataFor(calls, cb) == [c.data] + rest;
        ReversedCons(c.data, rest);
        assert AfterCalls(calls, cb, ns) == Reversed(rest) + ([c.data] + ns);
      } else {
        assert DataFor(calls, cb) == rest;
      }
    }
  }

  /** The notifications handed to callback `cb`, in call order. */
  function DataFor(calls: seq<Invocation>, cb: Callback): seq<Notification>
  {
    if |calls| == 0 then []
    else (if calls[0].callback == cb then [calls[0].data] else []) + DataFor(calls[1..], cb)
  }

  lemma DataForCons(c: Invocation, calls: seq<Invocation>, cb: Callback)
    ensures DataFor([c] + calls, cb) == (if c.callback == cb then [c.data] else []) + DataFor(calls, cb)
  {
    assert ([c] + calls)[1..] == calls;
  }

  function Reversed(s: seq<Notification>): (r: seq<Notification>)
    ensures |r| == |s|
  {
    if |s| == 0 then [] else Reversed(s[1..]) + [s[0]]
  }

  lemma ReversedCons(n: Notification, s: seq<Notification>)
    ensures Reversed([n] + s) == Reversed(s) + [n]
  {
    assert ([n] + s)[1..] == s;
  }

  // Event sequences on a fresh service and store.

  /** `initializeWebSocket` twice registers the store's listener once. */
  method InitializeTwiceSubscribesOnce() returns (registered: seq<Callback>, initialized: bool)
    ensures registered == [Callback(1)] && initialized
  {
    var service := new WebSocketService();
    var store := new NotificationsStore(service, Callback(1));
    assert NotificationTopic !in service.listeners;
    var none: seq<Callback> := [];
    assert none + [Callback(1)] == [Callback(1)];
    store.InitializeWebSocket(0);
    store.InitializeWebSocket(1);
    registered := ListenersFor(service.listeners, NotificationTopic);
    initialized := store.isInitialized;
  }

  /** `cleanup` removes the store's listener; a second `cleanup` changes
      nothing; initializing again registers it afresh. */
  method CleanupTwiceThenReinitialize() returns (afterCleanup: seq<Callback>, afterReinit: seq<Callback>)
    ensures afterCleanup == [] && afterReinit == [Callback(1)]
  {
    var service := new WebSocketService();
    var store := new NotificationsStore(service, Callback(1));
    assert NotificationTopic !in service.listeners;
    var none: seq<Callback> := [];
    assert none + [Callback(1)] == [Callback(1)];
    store.InitializeWebSocket(0);
    assert service.listeners == map[NotificationTopic := [Callback(1)]];
    assert RemoveFirst([Callback(1)], Callback(1)) == [];
    store.Cleanup();
    store.Cleanup();
    afterCleanup := ListenersFor(service.listeners, NotificationTopic);
    assert service.listeners == map[NotificationTopic := []];
    store.InitializeWebSocket(1);
    afterReinit := ListenersFor(service.listeners, NotificationTopic);
  }

  /** The id of the sample message: user id, document id and timestamp
      joined by hyphens. */
  lemma SampleId(dto: NotificationDTO)
    requires dto == NotificationDTO("2023-01-01T00:00:00Z", "u1", "Ann", "d1", "Spec")
    ensures MapNotificationDTOToNotification(dto).id == "u1-d1-2023-01-01T00:00:00Z"
  {
    var id := MapNotificationDTOToNotification(dto).id;
    assert id == dto.UserID + "-" + dto.DocumentID + "-" + dto.Timestamp;
    assert "u1" + "-" + "d1" + "-" + "2023-01-01T00:00:00Z" == "u1-d1-2023-01-01T00:00:00Z";
  }

  /** A store subscribed through `initializeWebSocket` to a service whose
      first socket has opened. */
  method SubscribedStoreOnOpenService() returns (service: WebSocketService, store: NotificationsStore)
    ensures fresh(service) && fresh(store)
    ensures service.Valid() && |service.sockets| == 1 && service.sockets[0] == Open
    ensures service.DeliveryOrder(NotificationTopic) == [Callback(1)]
    ensures store.Valid() && store.addNotificationCallback == Callback(1) && store.notifications == []
  {
    service := new WebSocketService();
    store := new NotificationsStore(service, Callback(1));
    assert NotificationTopic !in service.listeners;
    var none: seq<Callback> := [];
    assert none + [Callback(1)] == [Callback(1)];
    store.InitializeWebSocket(0);
    service.Connect(false);
    service.TransportOpened(0);
  }

  /** That store receives a message the open connection delivers, with its
      id built from the wire fields. */
  method EndToEndNotification() returns (ids: seq<string>, count: int)
    ensures ids == ["u1-d1-2023-01-01T00:00:00Z"] && count == 1
  {
    var service, store := SubscribedStoreOnOpenService();
    var dto := NotificationDTO("2023-01-01T00:00:00Z", "u1", "Ann", "d1", "Spec");
    var calls := service.TransportMessage(0, Some(dto));
    var n := MapNotificationDTOToNotification(dto);
    assert calls == [Invocation(Callback(1), n)];
    assert AfterCalls(calls, Callback(1), []) == AfterCalls([], Callback(1), [n]);
    store.Receive(calls);
    assert store.notifications == [n];
    SampleId(dto);
    ids := [store.notifications[0].id];
    count := store.notificationCount;
  }
}
