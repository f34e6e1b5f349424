# HTTP client with an async request queue — Dafny model

This project models the core of a small TypeScript HTTP client. The modelled parts are:

- **`Queue<T>`** (src/queue.ts): a singly linked FIFO queue. It has `head` and `tail` pointers, an element count `cursor`, and one insertion-ordered listener set per event (`enqueue`, `dequeue`, `clear`). Every mutation notifies that set synchronously.
- **`HttpClient`** (src/http-client.ts): every request goes through the queue. The client's own enqueue handler drains the queue, front first. For each item it does three things in order:
  1. It files the item in `requestMap` under its id.
  2. It refreshes the access token when a refresh token is held and the token is within ten seconds of expiry.
  3. It sends the item, with the auth headers, `x-request-id` and the caller's headers laid over them.

  A 401 answer goes through the `beforeError` hook (`errorHook`). With a refresh token held and a filed id, the hook stops the client, refreshes, enqueues the same item again and becomes idle, which sends the item again.

The project has five files:

| file | module | what it holds |
|---|---|---|
| `wrappers.dfy` | `Wrappers` | `Option` and `Result` |
| `queue.dfy` | `Queues` | `QueueNode` and `Queue` |
| `tokens.dfy` | `Tokens` | the stored credentials, the expiry test and the effect of a refresh reply |
| `requests.dfy` | `Requests` | request methods, header maps, the header overlay, auth headers and queue items |
| `client.dfy` | `HttpClients` | see below |

`client.dfy` holds:

- a pure specification of the drain loop (`DrainOne`, `Drain`, `Register`) and the lemmas about it;
- the `Storage` and `HttpClient` classes;
- scenarios for the client's tests, as methods whose `ensures` state the test's expectation:
  - `SimplePostScenario` for src/http-client.test.ts:40-55;
  - `ExpiredTokenScenario` for 82-114;
  - `ReplayedRequestStillRejected` and `ReplayedRequestResolves` for 189-219;
  - `UnauthenticatedScenario` for 222-228;
  - `FailedRefreshScenario` for 230-265.
- partial coverage of two more tests:
  - For 57-80, only the signed-in `get` is covered, by `SignedInGet`. The login `post` only yields tokens from a response body, which the model leaves out.
  - For 117-187, `DequeueSubscriberScenario` covers the subscription and the delivery log. The expectations at 184-186 are not modelled: they depend on the callback replacing the stored token, and what a callback does is left out.

### How the model is set up

- **Queue state.** `Queue` keeps ghost views `contents` (the items, front first) and `nodes` (the nodes holding them). `Valid()` ties them to `head`, `tail` and `cursor`:
  - the nodes form a chain;
  - `cursor == |contents|`;
  - `head` and `tail` are null exactly when the queue is empty.
- **Listeners.** A listener is an opaque handle (`nat`). A JavaScript `Set` is a duplicate-free sequence in insertion order. Each callback invocation is appended to `delivered` as a `Delivery`.
- **The network.** The network is an oracle. Everything the client sends is appended to `trace`:
  - a `Dispatched` entry holds the item, the method sent and the headers sent;
  - a `Refreshed` entry holds the headers posted to `tokens/refresh` and the endpoint's reply.
- **Environment.** The refresh endpoint is a function `(headers, trace length) -> RefreshReply`. `Date.now()` is a function `clock` of the trace length. `Storage.getTokenExpiration()` is a function of the held access token. `randomUUID()` becomes an `id` parameter of every entry point, which must be an id the client has not used yet.
- **One sequential schedule.** A refresh is one atomic step. The answer to a dispatched request arrives later, through `Complete(k, outcome)` for trace position `k`. How a caller's promise settled is kept in `settled`, keyed by item id, and only the first settlement counts.
- **The drain loop.** `run` is proved against its pure specification. `Drained()` states the whole new state after a drain:
  - the state is `Drain` of the old state over the old queue contents;
  - the map is `Register` of the old map over those contents;
  - the empty queue, the unchanged listener sets, and the `dequeue` deliveries made.

  The lemmas about `Drain` prove what the loop promises:
  - items go out in queue order, and all of them;
  - a refresh happens only right before a dispatch;
  - without a refresh token nothing is refreshed;
  - a refresh token is never invented;
  - every drained item is filed.

### Where the model departs from the source or its description

- **The queue's subscription API.** src/http-client.ts subscribes through `queue.subscribe` and the type `QueueAction` (src/http-client.ts:10, 58, 73), and src/queue.test.ts:36-44 does the same with event types `push`/`pop`/`clear`. src/queue.ts defines neither; it has only `on`/`off` with `enqueue`/`dequeue`/`clear` (src/queue.ts:6, 84-95).
  - The model uses the API that src/queue.ts defines.
  - `subscriber` is the client's handler for the `enqueue` event. The model assumes that its `action.type !== "push"` test lets every enqueue through, as the `subscribe` API the client was written against evidently did. Read literally against src/queue.ts, the callback gets the item itself (src/queue.ts:101), whose `type` is undefined; every enqueue would then return early and `run` would never start.
  - `subscribeToQueue` registers a callback for one event kind.
- **401 replays.** The test at src/http-client.test.ts:189-219 expects the caller to see the replay's answer after a 401. In the code, `errorHook` returns the error, `ky` then throws it, and the first dispatch's `.then(item.resolve, item.reject)` rejects the caller's promise. The replay's answer later settles a promise that is already settled. The model follows the code; see "## Findings".
- **Logout.** The test at src/http-client.test.ts:252-261 waits for a logout request after a failed refresh. The code makes none; it only logs `"logout"` and clears both tokens.
- **The `stopped` status.** The `run` loop does not look at `stopped`, and a proactive refresh does not set it.
- **The status setter.** Assigning `idle` restarts `run` without passing through `running`.

## Model

| member | source | states |
|---|---|---|
| Queues.Notify | src/queue.ts:100-102 | `emit` makes one delivery per registered listener, in registration order, each carrying the event |
| Queues.AddListener | src/queue.ts:93 | `Set.add` keeps the registered callbacks in order, registers the new one, and adds at most one entry |
| Queues.RemoveListener | src/queue.ts:85 | `Set.delete` leaves the callback unregistered and never adds an entry |
| Queues.AddMembership | src/queue.ts:92-93 | after `on`, the listeners are exactly the old ones plus the new one, and still without duplicates |
| Queues.RemoveMembership | src/queue.ts:84-86 | after `off`, the listeners are exactly the old ones other than the removed one, and still without duplicates |
| Queues.RemoveAbsent | src/queue.ts:84-86 | `off` of a listener that is not registered changes nothing |
| Queues.RemoveUndoesAdd | src/queue.ts:92-95 | for a callback not already registered, calling the function `on` returned restores the listener set that was there before (for one already registered it also removes the earlier registration) |
| Queues.AddIdempotent | src/queue.ts:92-93 | registering the same callback twice is the same as registering it once |
| Queues.QueueNode.constructor | src/queue.ts:1-4 | a node holds its data and its successor |
| Queues.Queue.constructor | src/queue.ts:20-28 | a new queue is empty, has no nodes and no listeners, and is well formed |
| Queues.Queue.Emit | src/queue.ts:97-102 | the log grows by exactly the deliveries to the listeners of the event's own kind; the invariant is untouched |
| Queues.Queue.Append | src/queue.ts:31-39 | linking a new node after the tail (or as head and tail of an empty queue) appends its data and keeps the chain well formed with `cursor` one larger |
| Queues.Queue.Enqueue | src/queue.ts:30-42 | `enqueue` appends the data at the back, adds exactly one node, which is fresh, emits exactly one `enqueue` event with the data, and keeps every listener set |
| Queues.Queue.Unlink | src/queue.ts:49-59 | unhooking the head returns the front item and leaves the rest in order, with `tail` reset when the last item goes |
| Queues.Queue.Dequeue | src/queue.ts:44-63 | on an empty queue it returns None and changes nothing, with no event; otherwise it returns the front item, drops it, and emits exactly one `dequeue` event with it |
| Queues.Queue.Peek | src/queue.ts:65-67 | the front item, or None when empty; a read that changes nothing |
| Queues.Queue.IsEmpty | src/queue.ts:69-71 | the `head == null` test holds exactly when the queue holds nothing |
| Queues.Queue.Size | src/queue.ts:73-75 | `size` (the field `cursor`) always equals the number of held items |
| Queues.Queue.Clear | src/queue.ts:77-82 | afterwards the queue is empty and well formed, and exactly one `clear` event has been delivered to the `clear` listeners |
| Queues.Queue.Off | src/queue.ts:84-86 | removes the callback from that event's set only; items and log untouched |
| Queues.Queue.On | src/queue.ts:88-95 | adds the callback to that event's set only, and returns the matching unsubscribe capability |
| Queues.Queue.Unsubscribe | src/queue.ts:94 | the returned function is `off` with the same event and callback |
| Queues.Apply | src/queue.ts:30-63 | one enqueue or dequeue step, with its exact effect on the contents and the returned item |
| Queues.PopFront | src/queue.ts:44-63 | a `dequeue` on a non-empty queue takes exactly the front item off and keeps the queue well formed |
| Queues.DrainAll | src/queue.ts:44-71 | dequeuing until `isEmpty` returns exactly the held items, in order, and leaves the queue empty |
| Queues.FifoLaw | src/queue.ts:30-63 | for any interleaving of enqueues and dequeues, what the dequeues return is a prefix of what was enqueued, and draining completes it to exactly the enqueue order |
| Queues.PushPopScenario | src/queue.test.ts:5-18 | push then pop one item: empty, then size 1 with that item in front, then it is returned, then empty with size 0 and nothing to peek |
| Queues.ClearScenario | src/queue.test.ts:20-29 | after `clear`: empty, size 0, nothing to peek |
| Queues.SubscribedQueue | src/queue.ts:88-95 | registering one callback for each of the three events on a new queue gives three one-element sets |
| Queues.EventScenario | src/queue.test.ts:31-45 | a callback subscribed to all events sees enqueue, dequeue and clear, once each, in that order |
| Tokens.ShouldRefreshAccessToken | src/http-client.ts:301-310 | never due without a refresh token |
| Tokens.RefreshDueWithinTenSeconds | src/http-client.ts:305-309 | with a refresh token, due exactly when less than 10000 ms of the token's life remain (expiration in seconds times 1000) |
| Tokens.MissingExpirationCountsAsExpired | src/http-client.ts:305 | a missing expiration counts as 0, so a refresh is always due at non-negative `now` |
| Tokens.RefreshStaysDue | src/http-client.ts:305-309 | once due, a refresh stays due as time advances |
| Tokens.AfterRefresh | src/http-client.ts:252-261 | a not-ok reply clears both tokens; an ok reply stores the returned access token and keeps the refresh token |
| Tokens.RefreshKeepsOrDropsRefreshToken | src/http-client.ts:252-261 | a refresh keeps the held refresh token or drops it, and never sets a different one |
| Tokens.FailedRefreshStopsRefreshing | src/http-client.ts:252-256 | after a failed refresh no proactive refresh is ever due again |
| Requests.ParseMethod | src/http-client.ts:15-16 | the method check succeeds exactly on the six names, and yields that method; a missing or other value is rejected with the value |
| Requests.ParseMethodName | src/http-client.ts:15-16 | every accepted method's own name passes the check |
| Requests.SetAll | src/http-client.ts:274-277 | setting header pairs one by one never drops a name already present |
| Requests.SetTruthy | src/http-client.ts:279-284 | setting the truthy record fields never drops a name already present |
| Requests.Overlay | src/http-client.ts:264-287 | the result of `constructHeaders` keeps every base name, whichever shape the caller's headers take |
| Requests.LastValue | src/http-client.ts:274-277 | the value under a name in a pair list is the one of the last pair with that name; None exactly when no pair has it |
| Requests.LastTruthy | src/http-client.ts:279-284 | the value under a name in a record is the last truthy one; None exactly when every value under it is missing or empty |
| Requests.SetAllLookup | src/http-client.ts:274-277 | setting the pairs one by one leaves under each name the last pair's value, or the base value when no pair names it |
| Requests.SetTruthyLookup | src/http-client.ts:279-284 | setting the truthy record fields leaves under each name the last truthy value, or the base value |
| Requests.OverlayLookup | src/http-client.ts:264-287 | overlay law: the caller's value wins wherever the caller sets a name; other names keep the base value or stay absent; no caller headers means the base |
| Requests.ConstructHeaders | src/http-client.ts:264-287 | the three copy loops compute exactly the overlay |
| Requests.AuthHeaders | src/http-client.ts:289-299 | exactly `authorization: Bearer <access>` when an access token is held and `x-refresh-token: <refresh>` when a refresh token is held, nothing else |
| Requests.EffectiveMethod | src/http-client.ts:237-241 | a method in the options overrides the item's own; without one the item's own method name is sent, which the method check accepts as that method |
| Requests.RequestHeaders | src/http-client.ts:232-234 | a sent request always carries `x-request-id`, and `authorization` and `x-refresh-token` whenever the tokens are held; the caller can only change their values |
| Requests.RequestCarriesId | src/http-client.ts:232-234 | a sent request carries its item's id under `x-request-id`, unless the caller set that header, whose value then wins |
| Requests.RequestCarriesBearer | src/http-client.ts:232-234 | a sent request carries the bearer token exactly when one is held, unless the caller set `authorization` |
| Requests.RequestCarriesRefreshToken | src/http-client.ts:232-234 | a sent request carries the refresh token under `x-refresh-token` exactly when one is held, unless the caller set that name |
| Requests.RequestCarriesCallerHeaders | src/http-client.ts:232-234 | under every other name a sent request carries exactly what the caller's headers say |
| HttpClients.RefreshStep | src/http-client.ts:244-262 | a refresh appends one entry recording that exactly the auth headers were posted, and sets the tokens as `AfterRefresh` says for the reply it records |
| HttpClients.DrainOneShape | src/http-client.ts:209-215 | one loop iteration (`DrainOne`) appends a refresh exactly when one is due, then the item's dispatch with the credentials in force after it. The refresh posts the auth headers and installs `AfterRefresh` of the endpoint's answer; with no refresh the credentials are unchanged |
| HttpClients.DrainLength | src/http-client.ts:201-216 | a drain (`Drain`) of n items appends at least n and at most 2n actions: one dispatch each and at most one refresh each |
| HttpClients.DispatchesAppend | src/http-client.ts:215 | one more sent action adds its item to the dispatch order exactly when it is a dispatch |
| HttpClients.DispatchesDrainOne | src/http-client.ts:209-215 | one loop iteration dispatches its item and nothing else, whether or not it refreshes first |
| HttpClients.DrainDispatchesInOrder | src/http-client.ts:201-216 | draining dispatches every queued item exactly once, in dequeue order, and nothing else |
| HttpClients.DrainExtends | src/http-client.ts:201-216 | draining only appends to what was sent |
| HttpClients.DrainRefreshesOnlyBeforeDispatch | src/http-client.ts:210-215 | every refresh the loop makes is immediately followed by a dispatch |
| HttpClients.DrainWithoutRefreshToken | src/http-client.ts:210-211 | without a refresh token the loop never refreshes: credentials stay and exactly one dispatch per item goes out, in order, with the current credentials |
| HttpClients.DrainKeepsOrDropsRefreshToken | src/http-client.ts:201-216 | a drain keeps the held refresh token or drops it, and never sets another one |
| HttpClients.RegisterFiles | src/http-client.ts:209 | `requestMap.set` over the drained items (`Register`) keeps every id the map had and gains exactly the drained ids; with distinct ids each maps to its own item |
| HttpClients.DrainSnoc | src/http-client.ts:202-215 | draining one more item is one more loop iteration, both for what is sent and for `requestMap` |
| HttpClients.DequeueDeliveriesSnoc | src/http-client.ts:203 | one more dequeue in the loop adds exactly that item's `dequeue` deliveries |
| HttpClients.ReplayTarget | src/http-client.ts:171-190 | an error leads to a replay exactly when it is a 401, a refresh token is held, the request had `x-request-id`, and that id is filed; the replayed item is the filed one |
| HttpClients.ReplaysOwnRequest | src/http-client.ts:180-194 | a 401 on a request the client itself sent replays exactly that item, while a refresh token is held and the caller did not set `x-request-id` |
| HttpClients.OnlyUnauthorizedReplays | src/http-client.ts:172-174 | any status but 401 passes through with no replay |
| HttpClients.SettlementOf | src/http-client.ts:215 | the caller's promise resolves exactly on an ok answer; a non-ok status or a network failure rejects it |
| HttpClients.SettleFirst | src/http-client.ts:215 | a promise settles once: earlier settlements stay, and a new one counts only for an unsettled id |
| HttpClients.Storage.constructor | src/http-client.ts:28-38 | the store holds the given tokens and reports the given expiration |
| HttpClients.HttpClient.constructor | src/http-client.ts:48-59 | a new client is idle, with an empty queue, an empty `requestMap`, nothing sent, and its own handler as the only enqueue listener |
| HttpClients.HttpClient.SetStatus | src/http-client.ts:65-70 | assigning `idle` drains whatever is queued and ends idle; any other value is stored and changes nothing else |
| HttpClients.HttpClient.Subscriber | src/http-client.ts:220-227 | while running or stopped the event is ignored and nothing changes; while idle, one drain of the whole queue runs and the client ends idle |
| HttpClients.HttpClient.Run | src/http-client.ts:201-218 | the loop leaves the queue empty and the status idle, sends exactly `Drain` of what was queued, files each item under its id, keeps every listener set and makes the `dequeue` deliveries |
| HttpClients.HttpClient.DrainLoop | src/http-client.ts:202-216 | the `while` loop exits only on an empty queue, having dequeued, filed and sent every item that was queued, in order |
| HttpClients.HttpClient.TakeNext | src/http-client.ts:203-207 | the loop's `dequeue` yields the next item in queue order; the null branch cannot be taken |
| HttpClients.HttpClient.Step | src/http-client.ts:209-215 | an iteration files the item, refreshes when due, and sends the item, as one more step of `Drain` |
| HttpClients.HttpClient.ExecuteRequest | src/http-client.ts:229-242 | sends the item with the method `{method, ...options}` selects and the assembled headers |
| HttpClients.HttpClient.RefreshToken | src/http-client.ts:244-262 | posts the auth headers to the refresh endpoint, records the reply, and updates the tokens as `AfterRefresh` says |
| HttpClients.HttpClient.Submit | src/http-client.ts:78-85 | one enqueue of an item with a new id on an idle client files and sends exactly that item (refreshing first when due), leaves the client idle with an empty queue, keeps every listener set, and delivers exactly one `enqueue` and one `dequeue` event for the item |
| HttpClients.HttpClient.ErrorHook | src/http-client.ts:171-198 | always returns the error; with no replay target nothing changes; otherwise one refresh, then the filed item sent again, ending idle, with every listener set kept and one `enqueue` and one `dequeue` delivery round for the item |
| HttpClients.HttpClient.Replay | src/http-client.ts:192-195 | stop, refresh unconditionally, re-enqueue the same item (ignored while stopped), become idle, which sends it; every listener set is kept and the item's `enqueue` and `dequeue` deliveries are made |
| HttpClients.HttpClient.Resend | src/http-client.ts:194-195 | enqueuing while stopped sends nothing; becoming idle then sends exactly that item and delivers its `enqueue` and `dequeue` events, keeping every listener set |
| HttpClients.HttpClient.Complete | src/http-client.ts:215 | an answer runs `errorHook` on a non-ok status, then settles the caller's promise first-wins by the answer itself, even when a replay was sent; without a replay the queue is untouched, with one the listener sets are kept and the replayed item's deliveries are made |
| HttpClients.HttpClient.CompleteReplaying | src/http-client.ts:192-198 | the corrected completion: a replayed 401 leaves the promise to the replay's answer; the queue is untouched without a replay, and with one the listener sets are kept and the replayed item's deliveries are made |
| HttpClients.HttpClient.Get | src/http-client.ts:76-90 | enqueues exactly one GET item under a new id, which is filed and sent; every listener set is kept and exactly its `enqueue` and `dequeue` events are delivered |
| HttpClients.HttpClient.Post | src/http-client.ts:92-106 | enqueues exactly one POST item under a new id, which is filed and sent; every listener set is kept and exactly its `enqueue` and `dequeue` events are delivered |
| HttpClients.HttpClient.Put | src/http-client.ts:108-122 | enqueues exactly one PUT item under a new id, which is filed and sent; every listener set is kept and exactly its `enqueue` and `dequeue` events are delivered |
| HttpClients.HttpClient.Patch | src/http-client.ts:124-138 | enqueues exactly one PATCH item under a new id, which is filed and sent; every listener set is kept and exactly its `enqueue` and `dequeue` events are delivered |
| HttpClients.HttpClient.Delete | src/http-client.ts:140-154 | enqueues exactly one DELETE item under a new id, which is filed and sent; every listener set is kept and exactly its `enqueue` and `dequeue` events are delivered |
| HttpClients.HttpClient.Request | src/http-client.ts:156-169 | a missing or unknown `options.method` is rejected before anything is enqueued; otherwise exactly one item with that method and a new id is enqueued and sent, keeping every listener set and delivering exactly its `enqueue` and `dequeue` events |
| HttpClients.HttpClient.SubscribeToQueue | src/http-client.ts:72-74 | registers an outside callback for one event only and returns its unsubscribe capability; the items, the nodes and the delivery log are untouched |
| HttpClients.HttpClient.UnsubscribeFromQueue | src/http-client.ts:72-74 | calling that capability removes the callback; the client's own handler stays, and the items, the nodes and the delivery log are untouched |
| HttpClients.ExpiredTokenScenario | src/http-client.test.ts:82-114 | an expired token is refreshed before the request, which then carries the new token |
| HttpClients.SimplePostScenario | src/http-client.test.ts:40-55 | without tokens a `post` sends one POST carrying only its `x-request-id`, and a 201 resolves the caller's promise |
| HttpClients.UnauthenticatedScenario | src/http-client.test.ts:222-228 | without tokens a 401 is not replayed and rejects the caller's promise |
| HttpClients.SignedInGet | src/http-client.ts:76-90 | a signed-in client's first `get` sends one request with the stored credentials and files it |
| HttpClients.SubscribedClient | src/http-client.ts:72-74 | a new client with one outside `dequeue` callback keeps its own `enqueue` handler as the only `enqueue` listener, and nothing has been delivered yet |
| HttpClients.DequeueSubscriberScenario | src/http-client.test.ts:144-161 | a `dequeue` callback subscribed before a `get` stays registered, and the delivery log is exactly the client's own `enqueue` handler and then that callback, each given that request's item once |
| HttpClients.ReplayedRequestStillRejected | src/http-client.test.ts:189-220 | as written: after a 401, a refresh and a replay answered 200, the caller's promise is still rejected with 401 |
| HttpClients.ReplayedRequestResolves | src/http-client.test.ts:189-220 | with the corrected completion the same exchange resolves the promise with 200 |
| HttpClients.FailedRefreshScenario | src/http-client.test.ts:230-265 | a 401 whose refresh also fails clears both tokens, replays without `authorization`, and the caller sees the 401 |

## Left out

- `ky` itself is left out: the transport, `HTTPError`, the wiring of the `beforeError` hook, and retries are a foreign library. The network is an oracle, and an answer arrives through `Complete` with a status or a network failure.
- `ky` throws on every non-2xx answer. So under `ky`'s defaults the `!response.ok` branch of `refreshToken` is only reached when throwing is disabled. The model takes that branch whenever the status is not ok.
- The model does not cover a refresh that throws. Thrown inside `errorHook` it leaves the status at `stopped`; thrown inside a `run` started by an enqueue it leaves the status at `running`; thrown inside a `run` started by the setter (after `errorHook`, src/http-client.ts:195, 67-69) it leaves the status at `idle` with items possibly still queued.
- Promises, `async`/`await` and concurrent drains are left out; one sequential schedule is modelled.
  - A refresh is one atomic step.
  - A `run` started by the setter runs to completion before anything else happens.
  - Enqueues that overlap a drain in progress are not modelled.
- `Date.now()` and `window.crypto.randomUUID()` are environment calls. They become the `clock` function and an `id` parameter.
- zod's `parse` is left out. It is modelled as the check against the six method names.
- `Headers` is case-insensitive and combines values in ways the model leaves out. Header names are map keys that are already lower-case, and `set` replaces the value.
- `console.log("logout")` is output only and is left out.
- Request bodies (`json`) and every `ky` option other than `method` and `headers` are left out: the client passes them to `ky` unread.
- `response.json()` in the verb helpers is left out. The decoded body of the refresh reply is its `token` field.
- What an outside listener does when it is called is left out. A call is only recorded in `delivered`.
- HttpClients.HttpClient.Submit: when outside callbacks are also registered for `enqueue`, the source calls them and the client's handler in registration order. The model runs the client's drain right after `enqueue` returns, on the delivery log that `enqueue` wrote.
- HttpClients.HttpClient.Subscriber: the intermediate `running` status is not part of the contract, only the idle state after the drain, because the drain runs to completion.
- The client's constructor `options` are not modelled. `ky.create` is called without them.
- `options` left undefined is modelled as `NoOptions`.
- Eviction from `requestMap` is not modelled, because the source never evicts.
- The public status getter is the field `status` itself.

## Findings

| source | as written | input that shows it | evidently intended | confidence | as-written member | corrected member |
|---|---|---|---|---|---|---|
| src/http-client.ts:193-198, 215 | `errorHook` replays the item and then returns the error, so `ky` throws it and the first dispatch's `.then(item.resolve, item.reject)` rejects the caller's promise; the replay's answer settles an already settled promise | signed in with a refresh token; `get("users/me")` is answered 401, the refresh is ok, the replay is answered 200 | the replayed request's answer settles the caller's promise (src/http-client.test.ts:217-219 expects `ok`) | not executed; medium (follows from the settlement order of promises and `ky`'s rethrow) | HttpClients.ReplayedRequestStillRejected | HttpClients.ReplayedRequestResolves |
