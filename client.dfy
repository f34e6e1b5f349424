/**
 * The orchestration of `HttpClient` in src/http-client.ts, run as one
 * sequential schedule: requests go into a `Queue`, the client's own enqueue
 * handler drains it, each dispatch is preceded by a refresh of the access token
 * when that is due, and a 401 answer can trigger a refresh and a replay of the
 * request.
 *
 * The network is an oracle: what the client sends is appended to `trace` (a
 * refresh is one atomic step that also records the endpoint's reply), and a
 * dispatched request's answer arrives later through `Complete`. `Date.now()`
 * is the function `clock` of the trace length at the moment it is read.
 */
module HttpClients {
  import opened Wrappers
  import opened Tokens
  import opened Requests
  import opened Queues

  /** One thing the client sends, in sending order. */
  datatype Action =
    | Dispatched(item: Item, sentMethod: string, headers: Headers)
    | Refreshed(headers: Headers, reply: RefreshReply)

  /** The part of the client's state its sending logic works on. */
  datatype Snapshot = Snapshot(creds: Credentials, trace: seq<Action>)

  /**
   * The environment: the expiration `getTokenExpiration` reports for an access
   * token, the clock, and the refresh endpoint's reply to the headers it gets
   * (the second argument of `clock` and `endpoint` is the trace length).
   */
  datatype Env = Env(expirationOf: Option<string> -> Option<int>, clock: nat -> int, endpoint: (Headers, nat) -> RefreshReply)

  /** The condition before a dispatch in `run`: a refresh token is held and `shouldRefreshAccessToken` holds. */
  predicate RefreshDue(s: Snapshot, env: Env) {
    s.creds.refresh.Some? && ShouldRefreshAccessToken(s.creds, env.expirationOf(s.creds.access), env.clock(|s.trace|))
  }

  /** `refreshToken`: post the auth headers to the refresh endpoint and store what it answers. */
  function RefreshStep(s: Snapshot, env: Env): (r: Snapshot)
    ensures |r.trace| == |s.trace| + 1 && s.trace <= r.trace
    ensures r.trace[|s.trace|].Refreshed? && r.trace[|s.trace|].headers == AuthHeaders(s.creds)
    ensures r.creds == AfterRefresh(s.creds, r.trace[|s.trace|].reply)
  {
    var headers := Overlay(AuthHeaders(s.creds), None);
    var reply := env.endpoint(headers, |s.trace|);
    Snapshot(AfterRefresh(s.creds, reply), s.trace + [Refreshed(headers, reply)])
  }

  /** `executeRequest`: send the item with the current credentials. */
  function Dispatch(s: Snapshot, item: Item): Snapshot {
    Snapshot(s.creds, s.trace + [Dispatched(item, EffectiveMethod(item), RequestHeaders(s.creds, item))])
  }

  /** One iteration of the `run` loop for a dequeued item. */
  function DrainOne(s: Snapshot, item: Item, env: Env): Snapshot {
    Dispatch(if RefreshDue(s, env) then RefreshStep(s, env) else s, item)
  }

  /** The whole `run` loop over the queued items, front first. */
  function Drain(s: Snapshot, items: seq<Item>, env: Env): Snapshot {
    if items == [] then s else DrainOne(Drain(s, items[..|items| - 1], env), items[|items| - 1], env)
  }

  /** `requestMap.set(item.id, item)` for each drained item in turn. */
  function Register(m: map<string, Item>, items: seq<Item>): map<string, Item> {
    if items == [] then m else Register(m, items[..|items| - 1])[items[|items| - 1].id := items[|items| - 1]]
  }

  /** The queue's three listener sets, one per event kind, as a drain finds them. */
  datatype ListenerSets = ListenerSets(enqueue: seq<Listener>, dequeue: seq<Listener>, clear: seq<Listener>)

  /** The `dequeue` events draining `items` delivers to the listeners `ls`. */
  function DequeueDeliveries(ls: seq<Listener>, items: seq<Item>): seq<Delivery<Item>> {
    if items == [] then [] else DequeueDeliveries(ls, items[..|items| - 1]) + Notify(ls, Dequeued(items[|items| - 1]))
  }

  /** The items of the dispatches in a trace, in sending order. */
  function Dispatches(t: seq<Action>): seq<Item> {
    if t == [] then []
    else Dispatches(t[..|t| - 1]) + (if t[|t| - 1].Dispatched? then [t[|t| - 1].item] else [])
  }

  lemma DispatchesAppend(t: seq<Action>, a: Action)
    ensures Dispatches(t + [a]) == Dispatches(t) + (if a.Dispatched? then [a.item] else [])
  {
    assert (t + [a])[..|t|] == t;
  }

  /** One loop iteration sends its item and nothing else, possibly after a refresh. */
  lemma DispatchesDrainOne(s: Snapshot, item: Item, env: Env)
    ensures Dispatches(DrainOne(s, item, env).trace) == Dispatches(s.trace) + [item]
  {
    var pre := if RefreshDue(s, env) then RefreshStep(s, env) else s;
    if RefreshDue(s, env) {
      DispatchesAppend(s.trace, Refreshed(AuthHeaders(s.creds), env.endpoint(AuthHeaders(s.creds), |s.trace|)));
    }
    DispatchesAppend(pre.trace, Dispatched(item, EffectiveMethod(item), RequestHeaders(pre.creds, item)));
  }

  /** Draining sends every item exactly once, in queue order, and sends nothing else. */
  lemma {:induction false} DrainDispatchesInOrder(s: Snapshot, items: seq<Item>, env: Env)
    ensures Dispatches(Drain(s, items, env).trace) == Dispatches(s.trace) + items
  {
    if items != [] {
      var prefix, last := items[..|items| - 1], items[|items| - 1];
      DrainDispatchesInOrder(s, prefix, env);
      DispatchesDrainOne(Drain(s, prefix, env), last, env);
      calc {
        Dispatches(Drain(s, items, env).trace);
        Dispatches(DrainOne(Drain(s, prefix, env), last, env).trace);
        Dispatches(Drain(s, prefix, env).trace) + [last];
        Dispatches(s.trace) + prefix + [last];
        { assert prefix + [last] == items; }
        Dispatches(s.trace) + items;
      }
    }
  }

  /**
   * One loop iteration appends to the trace: a refresh when one is due, then
   * the item's dispatch with the credentials in force after it. The refresh
   * posts the auth headers and stores what the endpoint answers; without one
   * the credentials stay as they are.
   */
  lemma DrainOneShape(s: Snapshot, item: Item, env: Env)
    ensures var r := DrainOne(s, item, env);
      && s.trace <= r.trace
      && |r.trace| == |s.trace| + (if RefreshDue(s, env) then 2 else 1)
      && r.trace[|r.trace| - 1] == Dispatched(item, EffectiveMethod(item), RequestHeaders(r.creds, item))
    ensures var r := DrainOne(s, item, env);
      var reply := env.endpoint(AuthHeaders(s.creds), |s.trace|);
      RefreshDue(s, env) ==>
        && r.trace[|s.trace|] == Refreshed(AuthHeaders(s.creds), reply)
        && r.creds == AfterRefresh(s.creds, reply)
    ensures !RefreshDue(s, env) ==> DrainOne(s, item, env).creds == s.creds
  {
  }

  /** Each drained item costs one dispatch and at most one refresh. */
  lemma {:induction false} DrainLength(s: Snapshot, items: seq<Item>, env: Env)
    ensures |s.trace| + |items| <= |Drain(s, items, env).trace| <= |s.trace| + 2 * |items|
  {
    if items != [] {
      DrainLength(s, items[..|items| - 1], env);
      DrainOneShape(Drain(s, items[..|items| - 1], env), items[|items| - 1], env);
    }
  }

  /** Draining only appends to the trace. */
  lemma {:induction false} DrainExtends(s: Snapshot, items: seq<Item>, env: Env)
    ensures s.trace <= Drain(s, items, env).trace
  {
    if items != [] {
      DrainExtends(s, items[..|items| - 1], env);
    }
  }

  /**
   * Every refresh a drain makes is immediately followed by a dispatch: the run
   * loop refreshes only on behalf of the item it is about to send.
   */
  lemma {:induction false} DrainRefreshesOnlyBeforeDispatch(s: Snapshot, items: seq<Item>, env: Env)
    ensures var t := Drain(s, items, env).trace;
      forall i :: |s.trace| <= i < |t| && t[i].Refreshed? ==> i + 1 < |t| && t[i + 1].Dispatched?
  {
    if items != [] {
      DrainRefreshesOnlyBeforeDispatch(s, items[..|items| - 1], env);
      DrainExtends(s, items[..|items| - 1], env);
    }
  }

  /**
   * Without a refresh token a drain never refreshes: the credentials stay as
   * they are and the trace grows by exactly one dispatch per item.
   */
  lemma {:induction false} DrainWithoutRefreshToken(s: Snapshot, items: seq<Item>, env: Env)
    requires s.creds.refresh.None?
    ensures Drain(s, items, env).creds == s.creds
    ensures Drain(s, items, env).trace ==
      s.trace + seq(|items|, i requires 0 <= i < |items| => Dispatched(items[i], EffectiveMethod(items[i]), RequestHeaders(s.creds, items[i])))
  {
    if items != [] {
      DrainWithoutRefreshToken(s, items[..|items| - 1], env);
    }
  }

  /** A drain never invents a refresh token: it keeps the held one or drops it. */
  lemma {:induction false} DrainKeepsOrDropsRefreshToken(s: Snapshot, items: seq<Item>, env: Env)
    ensures Drain(s, items, env).creds.refresh in {s.creds.refresh, None}
  {
    if items != [] {
      var mid := Drain(s, items[..|items| - 1], env);
      DrainKeepsOrDropsRefreshToken(s, items[..|items| - 1], env);
      RefreshKeepsOrDropsRefreshToken(mid.creds, env.endpoint(AuthHeaders(mid.creds), |mid.trace|));
    }
  }

  /**
   * `requestMap` is never cleaned up: every id it held stays, and every drained
   * item is filed under its id; with distinct ids, each id maps to its own item.
   */
  lemma {:induction false} RegisterFiles(m: map<string, Item>, items: seq<Item>)
    ensures forall id :: id in Register(m, items) <==> id in m || exists i :: 0 <= i < |items| && items[i].id == id
    ensures (forall i, j :: 0 <= i < j < |items| ==> items[i].id != items[j].id) ==>
      forall i :: 0 <= i < |items| ==> Register(m, items)[items[i].id] == items[i]
  {
    if items != [] {
      var prefix := items[..|items| - 1];
      RegisterFiles(m, prefix);
      assert forall i :: 0 <= i < |prefix| ==> prefix[i] == items[i];
    }
  }

  /** Draining one more item is one more loop iteration, on both records a drain keeps. */
  lemma DrainSnoc(s: Snapshot, m: map<string, Item>, items: seq<Item>, item: Item, env: Env)
    ensures Drain(s, items + [item], env) == DrainOne(Drain(s, items, env), item, env)
    ensures Register(m, items + [item]) == Register(m, items)[item.id := item]
  {
    assert (items + [item])[..|items|] == items;
  }

  lemma DequeueDeliveriesSnoc(ls: seq<Listener>, items: seq<Item>, item: Item)
    ensures DequeueDeliveries(ls, items + [item]) == DequeueDeliveries(ls, items) + Notify(ls, Dequeued(item))
  {
    assert (items + [item])[..|items|] == items;
  }

  /** The error `ky` passes to the `beforeError` hook: the answer's status and the sent request's headers. */
  datatype HttpError = HttpError(status: int, requestHeaders: Headers)

  /**
   * The decision of `errorHook`: the item a failed request is replayed as, or
   * None when the error passes through unchanged (not a 401, no refresh token,
   * no `x-request-id` header, or an id the client never filed).
   */
  function ReplayTarget(e: HttpError, c: Credentials, requestMap: map<string, Item>): (r: Option<Item>)
    ensures r.Some? <==>
      && e.status == 401
      && c.refresh.Some?
      && Lookup(e.requestHeaders, RequestIdHeader).Some?
      && e.requestHeaders[RequestIdHeader] in requestMap
    ensures r.Some? ==> r.value == requestMap[e.requestHeaders[RequestIdHeader]]
  {
    if e.status != 401 then None
    else if c.refresh.None? then None
    else
      match Lookup(e.requestHeaders, RequestIdHeader)
      case None => None
      case Some(id) => if id in requestMap then Some(requestMap[id]) else None
  }

  /**
   * A 401 on a request the client sent, while a refresh token is held, replays
   * exactly that request, provided its caller did not set `x-request-id`.
   */
  lemma ReplaysOwnRequest(sent: Credentials, now: Credentials, item: Item, requestMap: map<string, Item>)
    requires now.refresh.Some? && item.id in requestMap && requestMap[item.id] == item
    requires CallerValue(item.options.headers, RequestIdHeader).None?
    ensures ReplayTarget(HttpError(401, RequestHeaders(sent, item)), now, requestMap) == Some(item)
  {
    RequestCarriesId(sent, item);
  }

  /** The same request answered with any status but 401 is never replayed. */
  lemma OnlyUnauthorizedReplays(e: HttpError, c: Credentials, requestMap: map<string, Item>)
    requires e.status != 401
    ensures ReplayTarget(e, c, requestMap) == None
  {
  }

  /** `#status`. */
  datatype ClientStatus = Idle | Running | Stopped

  /** How a dispatched request's answer arrived: a status, or a failure of the network itself. */
  datatype Outcome = Responded(status: int) | NetworkFailure

  /** How a caller's promise settled: resolved with a response, or rejected (with the HTTP status, if any). */
  datatype Settlement = Resolved(status: int) | Rejected(httpStatus: Option<int>)

  /** `.then(item.resolve, item.reject)`: an ok response resolves, anything else rejects. */
  function SettlementOf(outcome: Outcome): (r: Settlement)
    ensures r.Resolved? <==> outcome.Responded? && IsOk(outcome.status)
  {
    match outcome
    case NetworkFailure => Rejected(None)
    case Responded(status) => if IsOk(status) then Resolved(status) else Rejected(Some(status))
  }

  /** A promise settles once: a later resolve or reject of the same promise has no effect. */
  function SettleFirst(settled: map<string, Settlement>, id: string, s: Settlement): (r: map<string, Settlement>)
    ensures r.Keys == settled.Keys + {id}
    ensures forall k :: k in settled ==> r[k] == settled[k]
    ensures id !in settled ==> r[id] == s
  {
    if id in settled then settled else settled[id := s]
  }

  /** What `errorHook` replays when the request sent as `sent` gets `outcome`; None when it is not called or passes. */
  function Replayed(outcome: Outcome, sent: Action, c: Credentials, requestMap: map<string, Item>): Option<Item>
    requires sent.Dispatched?
  {
    match outcome
    case NetworkFailure => None
    case Responded(status) => if IsOk(status) then None else ReplayTarget(HttpError(status, sent.headers), c, requestMap)
  }

  /** The handle of the client's own enqueue handler, registered first and never removed. */
  const ClientListener: Listener := 0

  /** `Storage`: the two tokens and the expiration it reports for the access token it holds. */
  class Storage {
    var accessToken: Option<string>
    var refreshToken: Option<string>
    /** `getTokenExpiration()` as a function of the held access token (seconds, or undefined). */
    const expirationOf: Option<string> -> Option<int>

    constructor (accessToken: Option<string>, refreshToken: Option<string>, expirationOf: Option<string> -> Option<int>)
      ensures this.accessToken == accessToken && this.refreshToken == refreshToken
      ensures this.expirationOf == expirationOf
    {
      this.accessToken := accessToken;
      this.refreshToken := refreshToken;
      this.expirationOf := expirationOf;
    }

    function Creds(): Credentials
      reads this
    {
      Credentials(accessToken, refreshToken)
    }
  }

  class HttpClient {
    const queue: Queue<Item>
    const storage: Storage
    const clock: nat -> int
    const refreshEndpoint: (Headers, nat) -> RefreshReply

    var status: ClientStatus
    var requestMap: map<string, Item>
    /** Everything sent so far. */
    var trace: seq<Action>
    /** How each caller's promise settled, by item id. */
    var settled: map<string, Settlement>
    /** The trace positions of the dispatches whose answer has arrived. */
    var completed: set<nat>

    function Environment(): Env {
      Env(storage.expirationOf, clock, refreshEndpoint)
    }

    function Snap(): Snapshot
      reads this`trace, storage
    {
      Snapshot(storage.Creds(), trace)
    }

    /** The queue is well formed and the client's handler is registered for its enqueue event. */
    ghost predicate Wired()
      reads queue, queue.footprint
    {
      queue.Valid() && ClientListener in queue.enqueueListeners
    }

    /** Between calls the client is idle and its queue is drained. */
    ghost predicate Valid()
      reads this`status, queue, queue.footprint
    {
      Wired() && status == Idle && queue.contents == []
    }

    /** What a drain of the whole queue did, relative to the state it started in. */
    twostate predicate Drained()
      reads this`status, this`requestMap, this`trace, storage, queue, queue.footprint
    {
      && Wired() && status == Idle && queue.contents == [] && queue.footprint == old(queue.footprint)
      && Snap() == Drain(old(Snap()), old(queue.contents), Environment())
      && requestMap == Register(old(requestMap), old(queue.contents))
      && queue.ListenersKept(None)
      && queue.delivered == old(queue.delivered) + DequeueDeliveries(queue.dequeueListeners, old(queue.contents))
    }

    /** The queue allocated only new nodes. */
    twostate predicate Grown()
      reads queue
    {
      old(queue.footprint) <= queue.footprint && fresh(queue.footprint - old(queue.footprint))
    }

    /**
     * What one item passing through the queue leaves in it: every listener set
     * kept, and one `enqueue` and one `dequeue` delivery round for that item.
     */
    twostate predicate PassedThrough(item: Item)
      reads queue
    {
      && queue.ListenersKept(None)
      && queue.delivered ==
           old(queue.delivered) + Notify(queue.enqueueListeners, Enqueued(item)) + Notify(queue.dequeueListeners, Dequeued(item))
    }

    constructor (storage: Storage, clock: nat -> int, refreshEndpoint: (Headers, nat) -> RefreshReply)
      ensures Valid() && fresh(queue) && queue.footprint == {}
      ensures this.storage == storage && this.clock == clock && this.refreshEndpoint == refreshEndpoint
      ensures requestMap == map[] && trace == [] && settled == map[] && completed == {}
      ensures queue.enqueueListeners == [ClientListener] && queue.dequeueListeners == [] && queue.clearListeners == []
      ensures queue.delivered == []
    {
      this.storage := storage;
      this.clock := clock;
      this.refreshEndpoint := refreshEndpoint;
      queue := new Queue<Item>();
      status := Idle;
      requestMap := map[];
      trace := [];
      settled := map[];
      completed := {};
      new;
      var _ := queue.On(EnqueueKind, ClientListener);
    }

    /** The `status` setter: assigning `idle` while items wait restarts the drain. */
    method SetStatus(value: ClientStatus)
      requires Wired()
      modifies this`status, this`requestMap, this`trace, queue, queue.footprint, storage
      ensures value == Idle ==> Drained()
      ensures value != Idle ==>
        && Wired() && status == value && requestMap == old(requestMap) && trace == old(trace)
        && unchanged(queue, storage) && unchanged(queue.footprint)
    {
      status := value;
      if value == Idle && !queue.IsEmpty() {
        Run();
      }
    }

    /**
     * `subscriber`, the client's handler for the queue's enqueue event: ignored
     * unless idle; otherwise the status becomes `running` and the queue is drained.
     */
    method Subscriber()
      requires Wired()
      modifies this`status, this`requestMap, this`trace, queue, queue.footprint, storage
      ensures old(status) != Idle ==> unchanged(this, queue, storage) && unchanged(queue.footprint)
      ensures old(status) == Idle ==> Drained()
    {
      if status != Idle {
        return;
      }
      SetStatus(Running);
      Run();
    }

    /**
     * `run`: dequeues until the queue is empty; each item is filed in
     * `requestMap`, the token is refreshed first when due, and the item is sent.
     * It ends by setting the status to `idle`.
     */
    method Run()
      requires Wired()
      modifies this`status, this`requestMap, this`trace, queue, queue.footprint, storage
      ensures Drained()
    {
      ghost var items := queue.contents;
      ghost var listeners := ListenerSets(queue.enqueueListeners, queue.dequeueListeners, queue.clearListeners);
      assert items[..0] == [];
      DrainLoop(items, Snap(), requestMap, queue.delivered, listeners, queue.footprint);
      assert items[..|items|] == items;
      // the setter's restart test fails here: the queue is empty
      status := Idle;
    }

    /** The `while` loop of `run`: dequeue and send until the queue is empty. */
    method DrainLoop(ghost items: seq<Item>, ghost start: Snapshot, ghost filed: map<string, Item>,
                     ghost log: seq<Delivery<Item>>, ghost listeners: ListenerSets,
                     ghost nodes: set<QueueNode<Item>>)
      requires QueueProgress(items, 0, log, listeners, nodes) && SendProgress(items, 0, start, filed)
      modifies this`requestMap, this`trace, queue, queue.footprint, storage
      ensures QueueProgress(items, |items|, log, listeners, nodes) && SendProgress(items, |items|, start, filed)
    {
      ghost var done := 0;
      while !queue.IsEmpty()
        invariant QueueProgress(items, done, log, listeners, nodes)
        invariant SendProgress(items, done, start, filed)
        decreases |items| - done
      {
        var next := TakeNext(items, done, log, listeners, nodes);
        Step(next, items, done, start, filed);
        done := done + 1;
      }
    }

    /**
     * The queue's side of the `run` loop: `items[..done]` have been dequeued,
     * delivering their events after `log`, `items[done..]` are still queued,
     * and no listener set changed.
     */
    ghost predicate QueueProgress(items: seq<Item>, done: nat, log: seq<Delivery<Item>>,
                                  listeners: ListenerSets, nodes: set<QueueNode<Item>>)
      reads queue, queue.footprint
    {
      && Wired() && queue.footprint == nodes
      && queue.enqueueListeners == listeners.enqueue && queue.dequeueListeners == listeners.dequeue
      && queue.clearListeners == listeners.clear
      && done <= |items| && queue.contents == items[done..]
      && queue.delivered == log + DequeueDeliveries(listeners.dequeue, items[..done])
    }

    /** The sending side of the `run` loop: `items[..done]` have been filed and sent, starting from `start` and `filed`. */
    ghost predicate SendProgress(items: seq<Item>, done: nat, start: Snapshot, filed: map<string, Item>)
      reads this`trace, this`requestMap, storage
    {
      && done <= |items|
      && Snap() == Drain(start, items[..done], Environment())
      && requestMap == Register(filed, items[..done])
    }

    /** The `dequeue` at the top of the `run` loop, and the `continue` the source takes on null. */
    method TakeNext(ghost items: seq<Item>, ghost done: nat, ghost log: seq<Delivery<Item>>,
                    ghost listeners: ListenerSets, ghost nodes: set<QueueNode<Item>>)
      returns (next: Item)
      requires QueueProgress(items, done, log, listeners, nodes) && queue.contents != []
      modifies queue, queue.footprint
      ensures done < |items| && next == items[done]
      ensures QueueProgress(items, done + 1, log, listeners, nodes)
    {
      assert items[..done + 1] == items[..done] + [items[done]];
      DequeueDeliveriesSnoc(listeners.dequeue, items[..done], items[done]);
      var item := queue.Dequeue();
      match item {
        case None =>
          assert false;
        case Some(data) =>
          next := data;
      }
    }

    /** The body of the `run` loop after `dequeue`: file the item, refresh when due, send it. */
    method Step(item: Item, ghost items: seq<Item>, ghost done: nat, ghost start: Snapshot, ghost filed: map<string, Item>)
      requires SendProgress(items, done, start, filed) && done < |items| && item == items[done]
      modifies this`requestMap, this`trace, storage
      ensures SendProgress(items, done + 1, start, filed)
    {
      assert items[..done + 1] == items[..done] + [items[done]];
      DrainSnoc(start, filed, items[..done], items[done], Environment());
      requestMap := requestMap[item.id := item];
      var hasRefreshToken := storage.refreshToken.Some?;
      if hasRefreshToken && ShouldRefreshAccessToken(storage.Creds(), storage.expirationOf(storage.accessToken), clock(|trace|)) {
        RefreshToken();
      }
      ExecuteRequest(item);
    }

    /** `executeRequest`: auth headers plus `x-request-id`, the caller's overlay, and `{method, ...options}`. */
    method ExecuteRequest(item: Item)
      modifies this`trace
      ensures trace == old(trace) + [Dispatched(item, EffectiveMethod(item), RequestHeaders(storage.Creds(), item))]
    {
      var initialHeaders := AuthHeaders(storage.Creds())[RequestIdHeader := item.id];
      var headers := ConstructHeaders(initialHeaders, item.options.headers);
      trace := trace + [Dispatched(item, EffectiveMethod(item), headers)];
    }

    /** `refreshToken`: a failed reply clears both tokens, an ok one stores the new access token. */
    method RefreshToken()
      modifies this`trace, storage
      ensures Snap() == RefreshStep(old(Snap()), Environment())
    {
      var headers := ConstructHeaders(AuthHeaders(storage.Creds()), None);
      var response := refreshEndpoint(headers, |trace|);
      trace := trace + [Refreshed(headers, response)];
      if !IsOk(response.status) {
        storage.accessToken := None;
        storage.refreshToken := None;
        return;
      }
      storage.accessToken := Some(response.token);
    }

    /** The enqueue every entry point makes, followed by the callback it triggers. */
    method Submit(item: Item)
      requires Valid() && item.id !in requestMap && item.id !in settled
      modifies this`status, this`requestMap, this`trace, queue, queue.footprint, storage
      ensures Valid() && Grown()
      ensures Snap() == DrainOne(old(Snap()), item, Environment())
      ensures requestMap == old(requestMap)[item.id := item]
      ensures PassedThrough(item)
    {
      DrainSnoc(Snap(), requestMap, [], item, Environment());
      DequeueDeliveriesSnoc(queue.dequeueListeners, [], item);
      queue.Enqueue(item);
      Subscriber();
    }

    /**
     * `errorHook`: always returns the error it got; when `ReplayTarget` names an
     * item, it first stops, refreshes, enqueues that item again (the handler
     * ignores it, the client being stopped) and becomes idle, which sends it.
     */
    method ErrorHook(e: HttpError) returns (r: HttpError)
      requires Valid()
      modifies this`status, this`requestMap, this`trace, queue, queue.footprint, storage
      ensures Valid() && Grown() && r == e
      ensures var target := ReplayTarget(e, old(storage.Creds()), old(requestMap));
        && (target.None? ==> unchanged(this, storage, queue) && unchanged(queue.footprint))
        && (target.Some? ==>
             && Snap() == DrainOne(RefreshStep(old(Snap()), Environment()), target.value, Environment())
             && requestMap == old(requestMap)[target.value.id := target.value]
             && PassedThrough(target.value))
    {
      r := e;
      if e.status != 401 {
        return;
      }
      if storage.refreshToken.None? {
        return;
      }
      var id := Lookup(e.requestHeaders, RequestIdHeader);
      if id.None? {
        return;
      }
      if id.value !in requestMap {
        return;
      }
      Replay(requestMap[id.value]);
    }

    /** The reaction of `errorHook` to a 401: stop, refresh, enqueue the item again, become idle. */
    method Replay(item: Item)
      requires Valid()
      modifies this`status, this`requestMap, this`trace, queue, queue.footprint, storage
      ensures Valid() && Grown()
      ensures Snap() == DrainOne(RefreshStep(old(Snap()), Environment()), item, Environment())
      ensures requestMap == old(requestMap)[item.id := item]
      ensures PassedThrough(item)
    {
      SetStatus(Stopped);
      RefreshToken();
      Resend(item);
    }

    /** The second half of a replay: the item is enqueued while stopped (the handler ignores it), then `idle` sends it. */
    method Resend(item: Item)
      requires Wired() && status == Stopped && queue.contents == []
      modifies this`status, this`requestMap, this`trace, queue, queue.footprint, storage
      ensures Valid() && Grown()
      ensures Snap() == DrainOne(old(Snap()), item, Environment())
      ensures requestMap == old(requestMap)[item.id := item]
      ensures PassedThrough(item)
    {
      DrainSnoc(Snap(), requestMap, [], item, Environment());
      DequeueDeliveriesSnoc(queue.dequeueListeners, [], item);
      queue.Enqueue(item);
      Subscriber();
      SetStatus(Idle);
    }

    /**
     * The answer to the request sent at trace position `k` arrives. A non-ok
     * status goes through `errorHook` first; then the caller's promise is
     * resolved or rejected, unless it has settled already.
     */
    method Complete(k: nat, outcome: Outcome)
      requires Valid() && k < |trace| && trace[k].Dispatched? && k !in completed
      modifies this, queue, queue.footprint, storage
      ensures Valid() && Grown()
      ensures completed == old(completed) + {k}
      ensures settled == SettleFirst(old(settled), old(trace[k].item.id), SettlementOf(outcome))
      ensures var target := Replayed(outcome, old(trace[k]), old(storage.Creds()), old(requestMap));
        if target.Some? then
          && Snap() == DrainOne(RefreshStep(old(Snap()), Environment()), target.value, Environment())
          && requestMap == old(requestMap)[target.value.id := target.value]
          && PassedThrough(target.value)
        else
          Snap() == old(Snap()) && requestMap == old(requestMap) && unchanged(queue)
    {
      var sent := trace[k];
      completed := completed + {k};
      if outcome.Responded? && !IsOk(outcome.status) {
        var _ := ErrorHook(HttpError(outcome.status, sent.headers));
      }
      settled := SettleFirst(settled, sent.item.id, SettlementOf(outcome));
    }

    /**
     * The intended completion: a 401 that `errorHook` answers with a replay
     * leaves the caller's promise to the replay's answer.
     */
    method CompleteReplaying(k: nat, outcome: Outcome)
      requires Valid() && k < |trace| && trace[k].Dispatched? && k !in completed
      modifies this, queue, queue.footprint, storage
      ensures Valid() && Grown()
      ensures completed == old(completed) + {k}
      ensures var target := Replayed(outcome, old(trace[k]), old(storage.Creds()), old(requestMap));
        if target.Some? then
          && settled == old(settled)
          && Snap() == DrainOne(RefreshStep(old(Snap()), Environment()), target.value, Environment())
          && requestMap == old(requestMap)[target.value.id := target.value]
          && PassedThrough(target.value)
        else
          && settled == SettleFirst(old(settled), old(trace[k].item.id), SettlementOf(outcome))
          && Snap() == old(Snap()) && requestMap == old(requestMap) && unchanged(queue)
    {
      var sent := trace[k];
      completed := completed + {k};
      var replay := Replayed(outcome, sent, storage.Creds(), requestMap);
      if outcome.Responded? && !IsOk(outcome.status) {
        var _ := ErrorHook(HttpError(outcome.status, sent.headers));
      }
      if replay.None? {
        settled := SettleFirst(settled, sent.item.id, SettlementOf(outcome));
      }
    }

    /** `get`: enqueues a GET item under a new id (a fresh `randomUUID()`); its answer settles `settled[id]`. */
    method Get(url: string, options: Options, id: string)
      requires Valid() && id !in requestMap && id !in settled
      modifies this`status, this`requestMap, this`trace, queue, queue.footprint, storage
      ensures Valid() && Grown()
      ensures Snap() == DrainOne(old(Snap()), Item(id, GET, url, options), Environment())
      ensures requestMap == old(requestMap)[id := Item(id, GET, url, options)]
      ensures PassedThrough(Item(id, GET, url, options))
    {
      Submit(Item(id, GET, url, options));
    }

    /** `post`: as `get`, with POST. */
    method Post(url: string, options: Options, id: string)
      requires Valid() && id !in requestMap && id !in settled
      modifies this`status, this`requestMap, this`trace, queue, queue.footprint, storage
      ensures Valid() && Grown()
      ensures Snap() == DrainOne(old(Snap()), Item(id, POST, url, options), Environment())
      ensures requestMap == old(requestMap)[id := Item(id, POST, url, options)]
      ensures PassedThrough(Item(id, POST, url, options))
    {
      Submit(Item(id, POST, url, options));
    }

    /** `put`: as `get`, with PUT. */
    method Put(url: string, options: Options, id: string)
      requires Valid() && id !in requestMap && id !in settled
      modifies this`status, this`requestMap, this`trace, queue, queue.footprint, storage
      ensures Valid() && Grown()
      ensures Snap() == DrainOne(old(Snap()), Item(id, PUT, url, options), Environment())
      ensures requestMap == old(requestMap)[id := Item(id, PUT, url, options)]
      ensures PassedThrough(Item(id, PUT, url, options))
    {
      Submit(Item(id, PUT, url, options));
    }

    /** `patch`: as `get`, with PATCH. */
    method Patch(url: string, options: Options, id: string)
      requires Valid() && id !in requestMap && id !in settled
      modifies this`status, this`requestMap, this`trace, queue, queue.footprint, storage
      ensures Valid() && Grown()
      ensures Snap() == DrainOne(old(Snap()), Item(id, PATCH, url, options), Environment())
      ensures requestMap == old(requestMap)[id := Item(id, PATCH, url, options)]
      ensures PassedThrough(Item(id, PATCH, url, options))
    {
      Submit(Item(id, PATCH, url, options));
    }

    /** `delete`: as `get`, with DELETE. */
    method Delete(url: string, options: Options, id: string)
      requires Valid() && id !in requestMap && id !in settled
      modifies this`status, this`requestMap, this`trace, queue, queue.footprint, storage
      ensures Valid() && Grown()
      ensures Snap() == DrainOne(old(Snap()), Item(id, DELETE, url, options), Environment())
      ensures requestMap == old(requestMap)[id := Item(id, DELETE, url, options)]
      ensures PassedThrough(Item(id, DELETE, url, options))
    {
      Submit(Item(id, DELETE, url, options));
    }

    /**
     * `request`: throws before enqueueing anything when `options.method` is not
     * one of the six methods; otherwise enqueues one item with that method.
     */
    method Request(url: string, options: Options, id: string) returns (r: Result<RequestMethod, MethodError>)
      requires Valid() && id !in requestMap && id !in settled
      modifies this`status, this`requestMap, this`trace, queue, queue.footprint, storage
      ensures Valid() && Grown() && r == ParseMethod(options.methodName)
      ensures r.Failure? ==> unchanged(this, queue, storage) && unchanged(queue.footprint)
      ensures r.Success? ==>
        && Snap() == DrainOne(old(Snap()), Item(id, r.value, url, options), Environment())
        && requestMap == old(requestMap)[id := Item(id, r.value, url, options)]
        && PassedThrough(Item(id, r.value, url, options))
    {
      r := ParseMethod(options.methodName);
      if r.Failure? {
        return;
      }
      Submit(Item(id, r.value, url, options));
    }

    /** `subscribeToQueue`: registers an outside callback for one queue event. */
    method SubscribeToQueue(kind: EventKind, l: Listener) returns (unsubscribe: Subscription)
      requires Valid() && l != ClientListener
      modifies queue
      ensures Valid() && unsubscribe == Subscription(kind, l)
      ensures queue.Listeners(kind) == AddListener(old(queue.Listeners(kind)), l)
      ensures queue.ListenersKept(Some(kind))
      ensures queue.contents == old(queue.contents) && queue.footprint == old(queue.footprint)
      ensures queue.delivered == old(queue.delivered)
    {
      AddMembership(queue.Listeners(kind), l);
      unsubscribe := queue.On(kind, l);
    }

    /** Calls the function `subscribeToQueue` returned; the client's own handler stays registered. */
    method UnsubscribeFromQueue(s: Subscription)
      requires Valid() && s.listener != ClientListener
      modifies queue
      ensures Valid()
      ensures queue.Listeners(s.kind) == RemoveListener(old(queue.Listeners(s.kind)), s.listener)
      ensures queue.ListenersKept(Some(s.kind))
      ensures queue.contents == old(queue.contents) && queue.footprint == old(queue.footprint)
      ensures queue.delivered == old(queue.delivered)
    {
      RemoveMembership(queue.Listeners(s.kind), s.listener);
      queue.Unsubscribe(s);
    }
  }

  /** A far-off expiration (in seconds) and a clock at the epoch: no proactive refresh is ever due. */
  const FarFuture := 1000000000

  /**
   * An expired access token is refreshed before the request is sent, and the
   * request carries the new token (src/http-client.test.ts:82-114).
   */
  method ExpiredTokenScenario() returns (trace: seq<Action>, access: Option<string>)
    ensures access == Some("fresh")
    ensures |trace| == 2 && trace[0].Refreshed? && trace[1].Dispatched?
    ensures Lookup(trace[1].headers, AuthorizationHeader) == Some("Bearer fresh")
  {
    var storage := new Storage(Some("expired"), Some("refresh"), token => Some(0));
    var client := new HttpClient(storage, n => 5000, (headers, n) => RefreshReply(200, "fresh"));
    client.Get("users/me", NoOptions, "id-1");
    RequestCarriesBearer(storage.Creds(), Item("id-1", GET, "users/me", NoOptions));
    assert "Bearer " + "fresh" == "Bearer fresh";
    trace, access := client.trace, storage.accessToken;
  }

  /**
   * A plain `post` without tokens sends one POST carrying only its
   * `x-request-id`, and a 2xx answer resolves the caller's promise
   * (src/http-client.test.ts:40-55).
   */
  method SimplePostScenario() returns (trace: seq<Action>, settled: map<string, Settlement>)
    ensures trace == [Dispatched(Item("id-1", POST, "users", NoOptions), "POST", map[RequestIdHeader := "id-1"])]
    ensures settled == map["id-1" := Resolved(201)]
  {
    var storage := new Storage(None, None, token => None);
    var client := new HttpClient(storage, n => 0, (headers, n) => RefreshReply(401, ""));
    client.Post("users", NoOptions, "id-1");
    client.Complete(0, Responded(201));
    trace, settled := client.trace, client.settled;
  }

  /** Without tokens a 401 passes straight through to the caller (src/http-client.test.ts:222-228). */
  method UnauthenticatedScenario() returns (trace: seq<Action>, settled: map<string, Settlement>)
    ensures |trace| == 1 && trace[0].Dispatched?
    ensures settled == map["id-1" := Rejected(Some(401))]
  {
    var storage := new Storage(None, None, token => None);
    var client := new HttpClient(storage, n => 0, (headers, n) => RefreshReply(401, ""));
    client.Get("users/me", NoOptions, "id-1");
    client.Complete(0, Responded(401));
    trace, settled := client.trace, client.settled;
  }

  /** The first request of a signed-in client whose tokens never expire; the refresh endpoint always answers `reply`. */
  method SignedInGet(reply: RefreshReply) returns (client: HttpClient, storage: Storage)
    ensures fresh(client) && fresh(storage) && fresh(client.queue) && fresh(client.queue.footprint)
    ensures client.Valid() && client.storage == storage && storage.Creds() == Credentials(Some("a"), Some("r"))
    ensures client.Environment() == Env(token => Some(FarFuture), n => 0, (headers, n) => reply)
    ensures var item := Item("id-1", GET, "users/me", NoOptions);
      && client.trace == [Dispatched(item, "GET", RequestHeaders(storage.Creds(), item))]
      && client.requestMap == map["id-1" := item]
    ensures client.settled == map[] && client.completed == {}
  {
    storage := new Storage(Some("a"), Some("r"), token => Some(FarFuture));
    client := new HttpClient(storage, n => 0, (headers, n) => reply);
    client.Get("users/me", NoOptions, "id-1");
  }

  /** A signed-in client with no request yet and callback 7 subscribed to `dequeue`. */
  method SubscribedClient() returns (client: HttpClient)
    ensures fresh(client) && fresh(client.storage) && fresh(client.queue) && client.queue.footprint == {}
    ensures client.Valid() && client.requestMap == map[] && client.settled == map[]
    ensures client.queue.enqueueListeners == [ClientListener] && client.queue.dequeueListeners == [7]
    ensures client.queue.delivered == []
  {
    var storage := new Storage(Some("a"), Some("r"), token => Some(FarFuture));
    client := new HttpClient(storage, n => 0, (headers, n) => RefreshReply(200, "b"));
    var _ := client.SubscribeToQueue(DequeueKind, 7);
  }

  /**
   * A callback subscribed to `dequeue` before a request
   * (src/http-client.test.ts:144-161) stays registered and sees that
   * request's item once, after the client's own `enqueue` handler.
   */
  method DequeueSubscriberScenario() returns (listeners: seq<Listener>, log: seq<Delivery<Item>>)
    ensures listeners == [7]
    ensures var item := Item("id-1", GET, "users/me", NoOptions);
      log == [Delivery(ClientListener, Enqueued(item)), Delivery(7, Dequeued(item))]
  {
    var client := SubscribedClient();
    client.Get("users/me", NoOptions, "id-1");
    listeners, log := client.queue.dequeueListeners, client.queue.delivered;
  }

  /**
   * A 401 with a refresh token held: the client refreshes and sends the same
   * item again, but the caller's promise has already been rejected with the
   * 401, so the replay's 200 is lost (src/http-client.test.ts:189-219 expects it).
   */
  method ReplayedRequestStillRejected() returns (trace: seq<Action>, outcome: Settlement)
    ensures |trace| == 3 && trace[1].Refreshed? && trace[2].Dispatched? && trace[0].Dispatched?
    ensures trace[2].item == trace[0].item
    ensures outcome == Rejected(Some(401))
  {
    var client, storage := SignedInGet(RefreshReply(200, "b"));
    ReplaysOwnRequest(storage.Creds(), storage.Creds(), Item("id-1", GET, "users/me", NoOptions), client.requestMap);
    client.Complete(0, Responded(401));
    assert |client.trace| == 3;
    client.Complete(2, Responded(200));
    trace, outcome := client.trace, client.settled["id-1"];
  }

  /** With the intended completion the same exchange resolves the caller's promise with the replay's 200. */
  method ReplayedRequestResolves() returns (trace: seq<Action>, outcome: Settlement)
    ensures |trace| == 3 && trace[0].Dispatched? && trace[2].Dispatched? && trace[2].item == trace[0].item
    ensures outcome == Resolved(200)
  {
    var client, storage := SignedInGet(RefreshReply(200, "b"));
    ReplaysOwnRequest(storage.Creds(), storage.Creds(), Item("id-1", GET, "users/me", NoOptions), client.requestMap);
    client.CompleteReplaying(0, Responded(401));
    assert |client.trace| == 3;
    client.CompleteReplaying(2, Responded(200));
    trace, outcome := client.trace, client.settled["id-1"];
  }

  /**
   * A 401 whose refresh also fails: both tokens are cleared, the replay goes
   * out without credentials, and the caller sees the 401
   * (src/http-client.test.ts:230-265; no logout request is made).
   */
  method FailedRefreshScenario() returns (trace: seq<Action>, access: Option<string>, refresh: Option<string>, outcome: Settlement)
    ensures access == None && refresh == None
    ensures |trace| == 3 && trace[2].Dispatched? && AuthorizationHeader !in trace[2].headers
    ensures outcome == Rejected(Some(401))
  {
    var client, storage := SignedInGet(RefreshReply(401, ""));
    ReplaysOwnRequest(storage.Creds(), storage.Creds(), Item("id-1", GET, "users/me", NoOptions), client.requestMap);
    client.Complete(0, Responded(401));
    assert |client.trace| == 3 && storage.Creds() == NoCredentials;
    client.Complete(2, Responded(401));
    trace, access, refresh, outcome := client.trace, storage.accessToken, storage.refreshToken, client.settled["id-1"];
  }
}
