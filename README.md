# Notification path of the iFile client, in Dafny

This project models the notification path of the iFile mobile client. Each
part is formally specified and proved:

- **`WebSocketService`** (module `WebSocket`) is a client connection state
  machine:
  - one held socket, and a flag for a connect attempt in progress;
  - a reconnect counter with a budget of 5, and reconnect timers, each of
    which fires 3000 ms after the close that scheduled it;
  - a publish/subscribe registry from topics to ordered lists of callbacks.

  The transport is abstract. Every socket ever created is kept with its ready
  state. Open, message, close and error reports, and the firing of a reconnect
  timer, are methods that the environment calls. Callbacks are opaque
  identities, so removal by identity can be stated. Delivering a message
  returns the calls made, in order.
- **`mapNotificationDTOToNotification`** (module `NotificationTypes`) maps the
  wire record to the app's notification. The id is user id, document id and
  timestamp joined by hyphens.
- **The notifications store** (module `NotificationsStore`) is a class with
  these fields:
  - the notification list and its count;
  - the connection flag;
  - the initialized flag;
  - the stored subscription and the polling interval.

  Its actions are `addNotification`, `clearNotifications`, `setIsConnected`,
  `initializeWebSocket` and `cleanup`. `initializeWebSocket` and `cleanup`
  call into the service's registry. `partialize` is the projection that gets
  persisted.
- **`sortDocuments`** (module `Sorting`) copies an array, then sorts the copy
  in place by title or newest-first update time. The sort is an insertion
  sort, proved to return a permutation in order.
- **`formatTimeAgo`** (module `DateUtils`) sorts the elapsed milliseconds into
  one of these buckets: unknown, just now, minutes, hours, days, or an
  absolute date.

Each module ends with event sequences on fresh objects. These show the
behaviours the tests rely on, stated as postconditions.

### Points where the code is narrower than its purpose

The model follows the code in each of these points:

- There is no throttling buffer and no batching. A decoded message is
  delivered at once.
- No listener is isolated from the others: a throwing listener ends the rest
  of the `forEach`, and the message handler's `catch` swallows the error.
  Listeners run no code in this model, so that is not captured (see below).
- `disconnect()` cancels no timer. It only sets the counter to its maximum,
  and it does so after `close()` (see Findings).
- The reconnect delay is a fixed 3000 ms. There is no backoff.
- No part of the app calls `websocketService.connect()`. The store only
  subscribes and polls `isConnected()`.

## Model

| member | source | states |
|---|---|---|
| DateUtils.FormatTimeAgo | src/utils/dateUtils.ts:1-30 | every count handed to `t` is at least 1; minutes stay below 60, hours below 24 and days below 7; the absolute date is the timestamp's own time |
| DateUtils.TranslationKey | src/utils/dateUtils.ts:8-28 | every relative bucket has a key under "notifications.timeAgo." and only the absolute date has none |
| DateUtils.TranslationKeySeparatesBuckets | src/utils/dateUtils.ts:8-26 | two relative results with the same key are in the same bucket |
| DateUtils.FloorMinutesToHours | src/utils/dateUtils.ts:12-20 | flooring to minutes and then to hours is flooring once by the milliseconds in an hour |
| DateUtils.FloorHoursToDays | src/utils/dateUtils.ts:20-24 | flooring to hours and then to days is flooring once by the milliseconds in a day |
| DateUtils.FormatTimeAgoBuckets | src/utils/dateUtils.ts:8-28 | an invalid date gives exactly `unknownTime`; each other bucket is taken exactly when the elapsed time falls in its half-open interval `[1 min, 1 h)`, `[1 h, 1 day)`, `[1 day, 7 days)`, `[7 days, ∞)`; anything under a minute, a future timestamp included, is `justNow`; each count is the number of whole units elapsed |
| NotificationTypes.MapNotificationDTOToNotification | src/types/Notification.ts:22-37 | the id has the user id, a hyphen, the document id, a hyphen and the timestamp, at those offsets and with that total length; user and document come field for field from the record |
| NotificationTypes.IdDependsOnlyOnKeyFields | src/types/Notification.ts:26-27 | records that agree on user id, document id and timestamp get the same id, so a redelivery gets the same id; the date depends only on the timestamp text |
| NotificationTypes.IdDeterminesKeyFields | src/types/Notification.ts:26 | when neither user id nor document id contains a hyphen, equal ids mean equal user id, document id and timestamp |
| NotificationTypes.IdCollidesAcrossHyphens | src/types/Notification.ts:26 | without that restriction two different users on two different documents can get the same id |
| WebSocket.IndexOf | src/services/websocketService.ts:85 | -1 exactly when the callback is absent; otherwise the position of its first occurrence |
| WebSocket.RemoveFirst | src/services/websocketService.ts:82-89 | an absent callback leaves the list as it was; a present one shortens it by one |
| WebSocket.RemoveFirstMultiset | src/services/websocketService.ts:85-87 | exactly one occurrence of the callback goes, and no other callback is lost or gained |
| WebSocket.SpliceAtIndexOf | src/services/websocketService.ts:85-87 | `splice(indexOf(cb), 1)` on a list holding `cb` is RemoveFirst |
| WebSocket.RemoveFirstKeepsOthersInOrder | src/services/websocketService.ts:82-89 | every other callback stays, in its order |
| WebSocket.UnsubscribeAfterSubscribe | src/services/websocketService.ts:72-91 | subscribing a new callback and calling the returned closure restores the list; for a callback already present, the earlier occurrence goes and the new one stays |
| WebSocket.WebSocketService.constructor | src/services/websocketService.ts:10-16 | no socket, no listeners, counter 0, not connecting, no timer, nothing sent |
| WebSocket.WebSocketService.IsConnected | src/services/websocketService.ts:105-107 | true exactly when a socket is held and it is open; how events change it is stated on the event methods: only an open of the held socket turns it on (TransportOpened), `connect()` and a firing timer never change it (Connect, FireReconnectTimer), a close never turns it on (TransportClosed), and `disconnect()` turns it off (Disconnect) |
| WebSocket.WebSocketService.Connect | src/services/websocketService.ts:18-52 | while the held socket is open or an attempt is under way, nothing changes; otherwise exactly one socket is created, held and connecting; if the constructor throws, only the flag is reset; `isConnected()` is unchanged |
| WebSocket.WebSocketService.HandleReconnect | src/services/websocketService.ts:62-70 | below the budget, the counter and the pending timers both go up by one; at the budget nothing changes; the counter never exceeds 5, and no more than 5 reconnects are scheduled between two opens |
| WebSocket.WebSocketService.HandleClose | src/services/websocketService.ts:41-44 | clears the connecting flag, then acts as HandleReconnect |
| WebSocket.WebSocketService.TransportOpened | src/services/websocketService.ts:28-31 | the socket is open, the flag is cleared, and the counter and the attempts since the last open are reset to 0; afterwards `isConnected()` holds exactly when it held before or the opened socket is the held one |
| WebSocket.WebSocketService.TransportMessage | src/services/websocketService.ts:33-39 | a parsed message calls the "notification" listeners and then the "*" listeners, in list order, with the mapped notification; a payload on which `JSON.parse` or the field reads throw calls nobody; no field changes |
| WebSocket.WebSocketService.TransportClosed | src/services/websocketService.ts:41-44 | the socket is closed and the flag cleared; a reconnect is scheduled exactly when the counter is below 5; once no timer is pending and the counter is at 5, that stays so; a close never makes `isConnected()` true |
| WebSocket.WebSocketService.TransportError | src/services/websocketService.ts:46-48 | only the connecting flag is cleared |
| WebSocket.WebSocketService.FireReconnectTimer | src/services/websocketService.ts:66-68 | one pending timer is consumed and `connect()` runs, with Connect's outcome, whatever happened since the timer was set; `isConnected()` is unchanged |
| WebSocket.WebSocketService.Disconnect | src/services/websocketService.ts:54-60 | as written: afterwards nothing is held, the service is not connected and the counter is 5; pending timers remain; a close that runs `onclose` synchronously schedules one more timer when the counter was below 5; an asynchronous close only moves the socket to closing |
| WebSocket.WebSocketService.DisconnectCorrected | src/services/websocketService.ts:54-60 | corrected: the same socket effects, plus no timer pending and the counter at 5, so nothing reconnects by itself until some socket next opens |
| WebSocket.WebSocketService.Subscribe | src/services/websocketService.ts:72-81 | the callback is appended to the end of its topic's list, and the list is created if absent; other topics are unchanged; the returned handle names the topic and the callback |
| WebSocket.WebSocketService.Unsubscribe | src/services/websocketService.ts:82-90 | the topic's list loses its first occurrence of that callback; an absent callback or topic changes nothing; other topics are unchanged |
| WebSocket.WebSocketService.NotifyListeners | src/services/websocketService.ts:93-103 | the calls made are the topic's listeners and then the wildcard listeners, each list in order |
| WebSocket.WebSocketService.Send | src/services/websocketService.ts:109-113 | the payload goes to the held socket exactly when it is open; otherwise nothing is sent |
| WebSocket.ConnectTwiceCreatesOneSocket | src/services/websocketService.ts:18-23 | a second `connect()` during a connect attempt creates no second socket |
| WebSocket.ReconnectBudgetRunsOut | src/services/websocketService.ts:62-70 | five unexpected closes with no open between them schedule five reconnects; the sixth schedules none, and the service stays disconnected |
| WebSocket.OpenResetsBudget | src/services/websocketService.ts:28-31 | after three failures and an open, one more failure is retried |
| WebSocket.SyncCloseDisconnectReconnects | src/services/websocketService.ts:54-60 | as written, with a synchronous close: `disconnect()` leaves a reconnect scheduled, and the service ends up connected again |
| WebSocket.PendingTimerSurvivesDisconnect | src/services/websocketService.ts:66-68 | as written: a timer from an earlier close fires after `disconnect()`, and the service ends up connected again |
| WebSocket.CorrectedDisconnectStaysDown | src/services/websocketService.ts:54-60 | with the corrected disconnect, neither sequence leaves a timer pending |
| WebSocket.CorrectedDisconnectOutlivedByDroppedSocket | src/services/websocketService.ts:28-31 | even with the corrected disconnect, a socket dropped while still connecting can later open, reset the counter, and lead to a reconnect |
| WebSocket.ConnectDisconnectCycles | src/services/__tests__/websocketService.test.ts:65-82 | two connect/disconnect cycles end disconnected, and a send then transmits nothing |
| WebSocket.CancelOneOfTwo | src/services/websocketService.ts:82-89 | the same callback subscribed twice, with one subscription cancelled, is still registered exactly once |
| WebSocket.CancelTwice | src/services/__tests__/websocketService.test.ts:96-103 | calling the unsubscribe closure again after it emptied the list changes nothing |
| WebSocket.DeliverToSubscriber | src/services/websocketService.ts:33-39 | a subscriber on an open connection is called exactly once with the mapped notification; a payload on which parsing throws calls nobody |
| NotificationsStore.NotificationsStore.constructor | src/stores/notificationsStore.ts:27-32 | empty list, count 0, not connected, not initialized, no subscription, no interval |
| NotificationsStore.NotificationsStore.Persisted | src/stores/notificationsStore.ts:105-108 | only the list and the count are persisted, and in a valid store the count is the list's length |
| NotificationsStore.NotificationsStore.AddNotification | src/stores/notificationsStore.ts:34-42 | the new notification goes first, the earlier ones keep their order, and the count is the new length |
| NotificationsStore.NotificationsStore.ClearNotifications | src/stores/notificationsStore.ts:44-50 | the list is empty and the count is 0; connection and initialization fields are untouched |
| NotificationsStore.NotificationsStore.SetIsConnected | src/stores/notificationsStore.ts:52-54 | sets the flag and nothing else |
| NotificationsStore.NotificationsStore.CheckConnection | src/stores/notificationsStore.ts:68-71 | the flag becomes the service's `isConnected()` |
| NotificationsStore.NotificationsStore.InitializeWebSocket | src/stores/notificationsStore.ts:56-82 | an initialized store is left as it is, and the registry is left as it is; otherwise exactly one "notification" subscription of `addNotification` is added and stored, the flag is polled, the interval is stored, and the store is initialized |
| NotificationsStore.NotificationsStore.Cleanup | src/stores/notificationsStore.ts:84-100 | the stored subscription, if any, is cancelled in the registry; the store is then uninitialized with no handles; with no handles stored the registry is unchanged |
| NotificationsStore.NotificationsStore.Receive | src/stores/notificationsStore.ts:62-65 | the service's calls to the store's `addNotification` run it in call order, and calls meant for other listeners are ignored; the list equals AfterCalls |
| NotificationsStore.AfterCallsPrepends | src/stores/notificationsStore.ts:34-36 | after a run of deliveries, the delivered notifications sit newest first in front of the earlier list |
| NotificationsStore.InitializeTwiceSubscribesOnce | src/stores/notificationsStore.ts:56-65 | two `initializeWebSocket` calls register the store's listener once |
| NotificationsStore.CleanupTwiceThenReinitialize | src/stores/notificationsStore.ts:84-100 | `cleanup` removes the listener; a second `cleanup` changes nothing; initializing again registers it once |
| NotificationsStore.SubscribedStoreOnOpenService | src/stores/notificationsStore.ts:56-82 | after `initializeWebSocket` and an open, the store's listener is the only one a notification reaches, and the store is empty |
| NotificationsStore.EndToEndNotification | src/stores/notificationsStore.ts:34-42 | a message delivered on the open connection ends up as the store's only notification, with the expected id, and a count of 1 |
| Sorting.ByTitleConsistent | src/utils/sorting.ts:7 | when `localeCompare` is a total preorder, so is the title comparator |
| Sorting.NewestFirst | src/utils/sorting.ts:9-13 | `a` may precede `b` exactly when `a` was updated no earlier than `b` |
| Sorting.NewestFirstConsistent | src/utils/sorting.ts:9-13 | the date comparator is a total preorder |
| Sorting.InsertStep | src/utils/sorting.ts:7 | swapping the element being inserted one step left keeps the insertion invariant |
| Sorting.InsertDone | src/utils/sorting.ts:7 | once the element being inserted stops moving, the prefix it was inserted into is in order |
| Sorting.Insert | src/utils/sorting.ts:7 | with the first `i` elements in order, one insertion leaves the first `i + 1` in order, with the same contents |
| Sorting.SortInPlace | src/utils/sorting.ts:7 | in-place `.sort(cmp)` leaves the array in order under `cmp` and a permutation of what it held |
| Sorting.Copy | src/utils/sorting.ts:4 | `[...documents]` is a new array with the same elements |
| Sorting.ShortPermutationIsEqual | src/utils/__tests__/sorting.test.ts:129-142 | a permutation of a list of at most one element is that list |
| Sorting.SortDocuments | src/utils/sorting.ts:3-14 | returns a new array that is a permutation of the input, which is untouched; by name, titles are non-decreasing under `localeCompare`; by date, update times are non-increasing; an empty or one-element input comes back equal |

## Left out

- The real WebSocket transport and the `WS_URL` endpoint. Socket creation,
  ready states and events are abstract, and the environment chooses when each
  event happens.
- `JSON.parse` and `JSON.stringify`. A message arrives already parsed, as
  `Option<NotificationDTO>`. `None` stands for only the payloads on which the
  handler throws: a JSON syntax error, or a `null` result whose fields cannot
  be read. `send` records its payload as a string.
- WebSocket.WebSocketService.TransportMessage: a payload that parses but does
  not fit the record (`{}`, a missing field, a number for `UserID`) is still
  delivered by the source, with fields such as `undefined` and an id such as
  "undefined-undefined-undefined". The string-typed record cannot represent
  such a payload, so the model does not cover it.
- `syncClose` is the test mock's `close()`, which marks the socket closed
  and runs `onclose` at once; an asynchronous close is a real WebSocket,
  whose close event comes later. The mock is not modelled in full: it also
  opens a socket from a timer set in its constructor, even after the socket
  was closed, and TransportOpened accepts only a connecting socket. The
  mock's held socket closes only inside `disconnect()`, so Disconnect and
  DisconnectCorrected ask for a held socket that is not yet closed when
  `syncClose` is set.
- WebSocket.WebSocketService.DisconnectCorrected: the service keeps
  disconnected only until a socket opens. Sockets it dropped keep their
  handlers. One of them that opens later resets the counter, and its close
  schedules a reconnect (CorrectedDisconnectOutlivedByDroppedSocket). The
  same sequence holds two sockets that are connecting at once. Ignoring
  events from sockets the service no longer holds would close this gap; that
  is a further change to the source, and it is not modelled.
- Time. `setTimeout`'s 3000 ms delay and the store's 2000 ms `setInterval` are
  not timed: a reconnect timer fires when `FireReconnectTimer` is called, and
  the interval's `clearInterval` is the handle being dropped.
- `new Date(...)`, `getTime()` and `new Date()` in `formatTimeAgo` become
  parameters (an optional millisecond count, and `now`). `toLocaleDateString`
  and the translation function `t` are left out: the result names the
  translation key and its count, or the time to show as a date.
- The notification's `timestamp` is kept as the text it was parsed from.
  Date parsing is not modelled.
- `localeCompare` and the parsed update time in `sortDocuments` are parameters.
  The model assumes only that `localeCompare` is a total preorder, and that
  dates parse to integers.
- Sorting.SortDocuments does not state that the sort is stable, and it uses
  an insertion sort where the engine uses its own algorithm. Only ordering and
  permutation are promised.
- The invalid-date sort test is out of scope: its `NaN` key gives an
  inconsistent comparator.
- WebSocket.WebSocketService.NotifyListeners: listeners are identities that run
  no code. A listener that throws, ending the remaining `forEach`, and a
  listener that subscribes or unsubscribes while being notified are not
  modelled.
- The store's `Toast.show`, AsyncStorage persistence and rehydration, and the
  zustand middleware are left out. `partialize` is modelled as a projection.
- The store's listener runs through `Receive`, which applies the calls the
  service returns. This models the action the service invokes. It does not
  model a re-entrant call made from inside the service's loop.
- The React hooks and the UI that read the store are not part of this model.

## Findings

| source | as written | input that shows it | evidently intended | confidence | as-written member | corrected member |
|---|---|---|---|---|---|---|
| src/services/websocketService.ts:54-68 | `disconnect()` calls `close()` before setting the counter to its maximum, and never cancels a reconnect timer that is already set | (1) a transport that runs `onclose` inside `close()`, as the test mock does: `connect()`, then `disconnect()`, then the timer fires. (2) `connect()`, open, an unexpected close, `disconnect()`, then the timer fires. In both cases the service creates a new socket and connects again | after `disconnect()` no pending timer reconnects the service, and a close schedules none, until a socket next opens | not executed | WebSocket.SyncCloseDisconnectReconnects | WebSocket.CorrectedDisconnectStaysDown |
