# Real-time notifications of the product catalogue client

This project models, in Dafny, the client side of the catalogue's real-time
notifications:

- `NotificationService` (module `Notifications`, file `notification_service.dfy`):
  one socket, a registry of the callbacks subscribed to each of the six
  catalog events (`new-review`, `review_updated`, `review_deleted`,
  `product:created`, `product:updated`, `product:deleted`), a connection
  flag kept up to date by the socket's `connect`, `disconnect` and
  `connect_error` handlers, room join/leave, and the teardown that
  unregisters everything. It is a class whose fields are updated in place:
  `listeners: map<Event, set<Callback>>` (the `Map` of `Set`s),
  `connected: bool`, and a ghost `log: seq<SocketCall>` that records every
  call made on the socket (`on`, `off`, `emit`, `disconnect`, plus the
  opening of the socket and the three lifecycle registrations the
  constructor makes). The log lets contracts say which socket calls are made
  without assuming anything about how the socket library treats them; in
  particular `addListener` calls `on` even when the callback was already in
  the set, and the model records exactly that.
- The list updaters of the two UI components: `ProductList`
  (`product_list.dfy`) for the product list and `ReviewSection`
  (`review_section.dfy`) for the reviews of one product. Each updater passed
  to the state hook is a function from the previous list to the next.
- `ArrayOps` (`array_ops.dfy`): JavaScript's `Array.prototype.map` and
  `Array.prototype.filter`, which the updaters are built from, defined once
  on sequences with their general properties (pointwise meaning, membership,
  order, idempotence).

Callbacks are values of `Callback(id)`: only their identity matters, as for
JavaScript functions stored in a `Set`. Room ids are strings, and a room id
is truthy when it is not the empty string.

The event catalog is modelled as the closed enumeration the code declares;
the code's connection state is a single boolean (there is no separate
"connecting" state, and no disconnect reason is kept), and the model follows
the code. The `subscribeTo*` methods return nothing, as the code has them:
the unsubscribe function built by `addListener` is dropped, so the model's
public subscription methods return nothing either, and only `AddListener`
returns the `Unsubscriber(event, callback)` pair that the closure captures.
`unsubscribeFrom` is public and takes the event as a string, so the model's
`UnsubscribeFrom` takes a name: `EventOf` reads it as a catalog event, and a
name outside the catalog is never a key of the registry, so it changes
nothing. The two UI components share the `ObjectId` type of module `Records`
(`records.dfy`).

## Model

| member | source | states |
|---|---|---|
| `ArrayOps.Map` | Product-Related.jsx:40-42 | `map` keeps the length and the i-th result is the callback applied to the i-th element |
| `ArrayOps.Filter` | Product-Related.jsx:53 | `filter` is no longer than its input; every kept element is from the input and satisfies the predicate; every input element satisfying it is kept |
| `ArrayOps.FilterIsSubsequence` | Review-Related.jsx:42 | the result of `filter` is a subsequence of its input (relative order kept) |
| `ArrayOps.FilterAppend` | Product-Related.jsx:52-54 | `filter` distributes over concatenation, so survivors appear in input order |
| `ArrayOps.FilterKeepsAll` | Review-Related.jsx:42 | `filter` keeps the length iff every element satisfies the predicate, and then returns its input |
| `ArrayOps.FilterIdempotent` | Product-Related.jsx:53 | filtering twice with the same predicate equals filtering once |
| `ProductList.Created` | Product-Related.jsx:30 | the created updater adds one element: the new product first, the previous list as the rest |
| `ProductList.Updated` | Product-Related.jsx:39-43 | the updated updater keeps the length and the id at every position (full pointwise meaning in `ProductList.UpdatedPointwise`) |
| `ProductList.UpdatedPointwise` | Product-Related.jsx:39-43 | the updated updater keeps the length; positions with the sent `_id` hold the sent product, all others are unchanged |
| `ProductList.UpdatedKeepsIds` | Product-Related.jsx:40-42 | the updated updater neither adds, removes nor reorders ids |
| `ProductList.UpdatedAbsent` | Product-Related.jsx:40-42 | an update whose `_id` matches no product returns the list unchanged |
| `ProductList.Deleted` | Product-Related.jsx:52-54 | the deleted updater is no longer than its input and no survivor has the sent `productId` (membership in `ProductList.DeletedMembers`) |
| `ProductList.DeletedMembers` | Product-Related.jsx:52-54 | the deleted updater is no longer than its input and keeps a product iff it is in the input and its `_id` differs from `productId` |
| `ProductList.DeletedKeepsOrder` | Product-Related.jsx:53 | the surviving products keep their relative order |
| `ProductList.DeletedIdempotent` | Product-Related.jsx:53 | applying the deleted updater twice equals applying it once |
| `ProductList.DeletedAbsent` | Product-Related.jsx:53 | deleting an id no product has returns the list unchanged |
| `ReviewSection.Added` | Review-Related.jsx:25-29 | a review for the shown product is put first and the rest is the previous list; a review for another product leaves the list unchanged |
| `ReviewSection.WithContent` | Review-Related.jsx:35 | the spread `{ ...review, content }` has the new content and keeps id, product, author and date |
| `ReviewSection.Updated` | Review-Related.jsx:33-37 | the updated updater keeps the length and the id at every position (full pointwise meaning in `ReviewSection.UpdatedPointwise`) |
| `ReviewSection.UpdatedPointwise` | Review-Related.jsx:33-37 | the updated updater keeps the length; a review with the sent id gets the sent content and keeps its other fields; any other review is unchanged |
| `ReviewSection.UpdatedAbsent` | Review-Related.jsx:34-36 | an update whose id matches no review returns the list unchanged |
| `ReviewSection.Deleted` | Review-Related.jsx:42 | the deleted updater is no longer than its input and no survivor has the sent `reviewId` (membership in `ReviewSection.DeletedMembers`) |
| `ReviewSection.DeletedMembers` | Review-Related.jsx:42 | a review of the list is in the result iff its `_id` differs from `reviewId`; the result has nothing else and is no longer |
| `ReviewSection.DeletedKeepsOrder` | Review-Related.jsx:42 | the surviving reviews keep their relative order |
| `ReviewSection.DeletedIdempotent` | Review-Related.jsx:42 | applying the deleted updater twice equals applying it once |
| `Notifications.Name` | NotificationService.js:4-14 | the wire string of each catalog event; it is one-to-one (`Notifications.NameInjective`) and inverted by `Notifications.EventOf` (`Notifications.EventOfName`) |
| `Notifications.NameInjective` | NotificationService.js:4-14 | no two catalog events share a wire name |
| `Notifications.EventOf` | NotificationService.js:94-95 | reads a string as a catalog event: a result names an event with that wire string; no result means no catalog event has it |
| `Notifications.EventOfName` | NotificationService.js:90 | reading back the wire name of a catalog event gives that event, so the unsubscriber reaches the pair it captured |
| `Notifications.Truthy` | NotificationService.js:106 | a string room id passes the `roomId` test iff it is not the empty string |
| `Notifications.Startup` | NotificationService.js:23-44 | the constructor's socket calls: the socket is opened first with the base URL, then `connect`, `disconnect` and `connect_error` are each watched |
| `Notifications.Register` | NotificationService.js:82-85 | after a registration the callback is in the event's set; the set otherwise keeps its callbacks; other events are untouched; registering a present callback changes nothing |
| `Notifications.Unregister` | NotificationService.js:95-100 | after removal the callback is not registered for the event; other callbacks and other events are untouched; removing an absent callback changes nothing |
| `Notifications.RegisterIdempotent` | NotificationService.js:85 | registering the same pair twice gives the same registry as once |
| `Notifications.UnregisterIdempotent` | NotificationService.js:94-102 | unsubscribing the same pair twice gives the same registry as once |
| `Notifications.RegisterThenUnregister` | NotificationService.js:80-102 | subscribing then unsubscribing leaves the pair unregistered and every other pair's registration as before |
| `Notifications.VisitEvent` | NotificationService.js:120-124 | a step of the outer loop of the teardown turns off exactly the pairs of the visited event, none twice |
| `Notifications.SendOne` | NotificationService.js:121-123 | a step of the inner loop of the teardown turns off one more pair of the event, none twice |
| `Notifications.DistinctCardinality` | NotificationService.js:120-124 | a list of pairs without repetition has as many elements as distinct pairs (one `off` per stored pair) |
| `Notifications.NotificationService.constructor` | NotificationService.js:21-45 | a new service has no subscriptions, is not connected, and has opened the socket and registered the three lifecycle handlers |
| `Notifications.NotificationService.HandleConnect` | NotificationService.js:31-34 | the connect handler sets the flag and changes neither the registry nor the socket log |
| `Notifications.NotificationService.HandleDisconnect` | NotificationService.js:36-39 | the disconnect handler clears the flag; subscriptions survive |
| `Notifications.NotificationService.HandleConnectError` | NotificationService.js:41-44 | the connect-error handler clears the flag; subscriptions survive |
| `Notifications.NotificationService.IsConnected` | NotificationService.js:47-49 | returns the connection flag and changes nothing |
| `Notifications.NotificationService.AddListener` | NotificationService.js:80-91 | registers the pair, appends exactly one `on(event, callback)` whether or not it was present, keeps the flag, and returns the (event, callback) unsubscriber |
| `Notifications.NotificationService.SubscribeToProductCreated` | NotificationService.js:54-56 | is `addListener` on `product:created` |
| `Notifications.NotificationService.SubscribeToProductUpdated` | NotificationService.js:58-60 | is `addListener` on `product:updated` |
| `Notifications.NotificationService.SubscribeToProductDeleted` | NotificationService.js:62-64 | is `addListener` on `product:deleted` |
| `Notifications.NotificationService.SubscribeToNewReview` | NotificationService.js:67-69 | is `addListener` on `new-review` |
| `Notifications.NotificationService.SubscribeToReviewUpdated` | NotificationService.js:71-73 | is `addListener` on `review_updated` |
| `Notifications.NotificationService.SubscribeToReviewDeleted` | NotificationService.js:75-77 | is `addListener` on `review_deleted` |
| `Notifications.NotificationService.UnsubscribeFrom` | NotificationService.js:94-102 | takes any event name: a name outside the catalog changes nothing; for a catalog event it removes the pair and appends `off(event, callback)` iff the pair was registered, and nothing otherwise; keeps the flag |
| `Notifications.NotificationService.CallUnsubscriber` | NotificationService.js:90 | invoking the returned unsubscriber has exactly the effect of `unsubscribeFrom` on its pair |
| `Notifications.NotificationService.JoinRoom` | NotificationService.js:105-109 | appends one `emit('join', roomId)` iff connected and the room id is truthy; nothing else changes |
| `Notifications.NotificationService.LeaveRoom` | NotificationService.js:112-116 | appends one `emit('leave', roomId)` iff connected and the room id is truthy; nothing else changes |
| `Notifications.NotificationService.OffEach` | NotificationService.js:121-123 | logs one `off` for each callback of one event's set, each once |
| `Notifications.NotificationService.OffAll` | NotificationService.js:120-124 | logs one `off` for each stored pair, each once |
| `Notifications.NotificationService.Disconnect` | NotificationService.js:119-128 | logs one `off` per stored pair, each once, then the socket `disconnect`; afterwards the registry is empty and the flag is false |
| `Notifications.DisconnectTwice` | NotificationService.js:119-128 | a second teardown logs no `off`, only another socket `disconnect` |
| `Notifications.UnsubscribeTwice` | NotificationService.js:94-102 | two identical unsubscriptions, by any event name, change the registry and the log as one does |

## Left out

- Socket transport: the connection options (credentials, transports, reconnection attempts and delay, NotificationService.js:23-28) and what the socket library does with `on`, `off`, `emit` and `disconnect`; the socket is reduced to the log of calls made on it.
- Delivery of inbound events to callbacks (order, error isolation): it happens inside the socket library, not in this code.
- Notifications.NotificationService.Disconnect: promises one `off` per stored pair in some order, not in the insertion order of `Map.prototype.forEach` and `Set.prototype.forEach`, because Dafny maps and sets are unordered.
- The `reason` and `error` arguments of the lifecycle handlers are accepted and ignored, as the code only logs them; console output and the toasts of the product list are not modelled.
- Room ids that are not strings: only the string case of JavaScript truthiness is modelled.
- The module-level singleton built from the environment (NotificationService.js:132-133).
- React: rendering, the initial fetches and loading flag, the effect and state hooks, and date formatting; only the updater functions passed to the state hooks are modelled.
- The components' cleanup closures: the `subscribeTo*` methods return nothing, so those closures call `undefined`; they are not modelled.
- Product prices are modelled as `real`, not as IEEE floating point; the updaters never look at them.
