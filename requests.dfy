/**
 * Requests as src/http-client.ts builds them: the six accepted methods and the
 * check `request` applies to `options.method`, header maps with the caller's
 * overlay (`constructHeaders`), the auth headers (`getAuthHeaders`) and the
 * header set `executeRequest` sends.
 *
 * `Headers` is case-insensitive in the source; here header names are already
 * lower-case keys of a map.
 */
module Requests {
  import opened Wrappers
  import opened Tokens

  /** `requestMethods`: the methods the client accepts. */
  datatype RequestMethod = GET | POST | PUT | PATCH | HEAD | DELETE

  function MethodName(m: RequestMethod): string {
    match m
    case GET => "GET"
    case POST => "POST"
    case PUT => "PUT"
    case PATCH => "PATCH"
    case HEAD => "HEAD"
    case DELETE => "DELETE"
  }

  /** Why `requestMethodSchema.parse` threw: the given value, possibly missing. */
  datatype MethodError = InvalidMethod(given: Option<string>)

  /**
   * `requestMethodSchema.parse(options?.method)`: succeeds exactly when the value
   * is present and is one of the six names, spelled as listed.
   */
  function ParseMethod(s: Option<string>): (r: Result<RequestMethod, MethodError>)
    ensures r.Success? ==> s == Some(MethodName(r.value))
    ensures r.Failure? ==> r.error == InvalidMethod(s) && forall m :: s != Some(MethodName(m))
  {
    match s
    case None => Failure(InvalidMethod(s))
    case Some(name) =>
      if name == "GET" then Success(GET)
      else if name == "POST" then Success(POST)
      else if name == "PUT" then Success(PUT)
      else if name == "PATCH" then Success(PATCH)
      else if name == "HEAD" then Success(HEAD)
      else if name == "DELETE" then Success(DELETE)
      else Failure(InvalidMethod(s))
  }

  /** Every method's own name passes the check and yields that method back. */
  lemma ParseMethodName(m: RequestMethod)
    ensures ParseMethod(Some(MethodName(m))) == Success(m)
  {
  }

  type Headers = map<string, string>

  /** "Authorization", as `Headers` stores it. */
  const AuthorizationHeader := "authorization"
  /** `REFRESH_TOKEN_HEADER` (src/constants.ts:17). */
  const RefreshTokenHeader := "x-refresh-token"
  const RequestIdHeader := "x-request-id"

  /** `Headers.get`: the value under `k`, or null. */
  function Lookup(h: Headers, k: string): Option<string> {
    if k in h then Some(h[k]) else None
  }

  /** The three shapes of `options.headers` that `constructHeaders` distinguishes. */
  datatype CallerHeaders =
    | HeadersObject(entries: Headers)                  // a `Headers` instance
    | HeaderPairs(pairs: seq<(string, string)>)        // an array of name/value pairs
    | HeaderRecord(fields: seq<(string, Option<string>)>)  // a plain object; `undefined` is None

  /** `headers.set` for each pair in turn. */
  function SetAll(h: Headers, pairs: seq<(string, string)>): (r: Headers)
    ensures h.Keys <= r.Keys
  {
    if pairs == [] then h
    else SetAll(h, pairs[..|pairs| - 1])[pairs[|pairs| - 1].0 := pairs[|pairs| - 1].1]
  }

  /** JavaScript truthiness of a record value: present and not the empty string. */
  predicate Truthy(value: Option<string>) {
    value.Some? && value.value != ""
  }

  /** `headers.set` for each record field in turn, skipping falsy values. */
  function SetTruthy(h: Headers, fields: seq<(string, Option<string>)>): (r: Headers)
    ensures h.Keys <= r.Keys
  {
    if fields == [] then h
    else
      var (key, value) := fields[|fields| - 1];
      var before := SetTruthy(h, fields[..|fields| - 1]);
      if Truthy(value) then before[key := value.value] else before
  }

  /** `constructHeaders(base, caller)`: a copy of `base` with the caller's headers set over it. */
  function Overlay(base: Headers, caller: Option<CallerHeaders>): (r: Headers)
    ensures base.Keys <= r.Keys
  {
    match caller
    case None => base
    case Some(HeadersObject(entries)) => base + entries
    case Some(HeaderPairs(pairs)) => SetAll(base, pairs)
    case Some(HeaderRecord(fields)) => SetTruthy(base, fields)
  }

  /** The value the last pair named `k` carries, if any pair is named `k`. */
  function LastValue(pairs: seq<(string, string)>, k: string): (r: Option<string>)
    ensures r.None? <==> forall j :: 0 <= j < |pairs| ==> pairs[j].0 != k
    ensures r.Some? ==>
      exists j :: 0 <= j < |pairs| && pairs[j] == (k, r.value) && forall i :: j < i < |pairs| ==> pairs[i].0 != k
  {
    if pairs == [] then None
    else if pairs[|pairs| - 1].0 == k then Some(pairs[|pairs| - 1].1)
    else LastValue(pairs[..|pairs| - 1], k)
  }

  /** The value of the last field named `k` whose value is truthy, if there is one. */
  function LastTruthy(fields: seq<(string, Option<string>)>, k: string): (r: Option<string>)
    ensures r.None? <==> forall j :: 0 <= j < |fields| && fields[j].0 == k ==> !Truthy(fields[j].1)
    ensures r.Some? ==>
      && r.value != ""
      && exists j :: 0 <= j < |fields| && fields[j] == (k, r) &&
           forall i :: j < i < |fields| && fields[i].0 == k ==> !Truthy(fields[i].1)
  {
    if fields == [] then None
    else if fields[|fields| - 1].0 == k && Truthy(fields[|fields| - 1].1) then fields[|fields| - 1].1
    else LastTruthy(fields[..|fields| - 1], k)
  }

  /** What the caller's headers say about `k`: None when they leave `k` alone. */
  function CallerValue(caller: Option<CallerHeaders>, k: string): Option<string> {
    match caller
    case None => None
    case Some(HeadersObject(entries)) => Lookup(entries, k)
    case Some(HeaderPairs(pairs)) => LastValue(pairs, k)
    case Some(HeaderRecord(fields)) => LastTruthy(fields, k)
  }

  lemma {:induction false} SetAllLookup(h: Headers, pairs: seq<(string, string)>, k: string)
    ensures Lookup(SetAll(h, pairs), k) == if LastValue(pairs, k).Some? then LastValue(pairs, k) else Lookup(h, k)
  {
    if pairs != [] {
      SetAllLookup(h, pairs[..|pairs| - 1], k);
    }
  }

  lemma {:induction false} SetTruthyLookup(h: Headers, fields: seq<(string, Option<string>)>, k: string)
    ensures Lookup(SetTruthy(h, fields), k) == if LastTruthy(fields, k).Some? then LastTruthy(fields, k) else Lookup(h, k)
  {
    if fields != [] {
      SetTruthyLookup(h, fields[..|fields| - 1], k);
    }
  }

  /**
   * The overlay law of `constructHeaders`: under every name the caller sets
   * (for a record, with a truthy value) the caller's last value wins; every
   * other name keeps its base value or stays absent. Without caller headers
   * the result is the base.
   */
  lemma OverlayLookup(base: Headers, caller: Option<CallerHeaders>, k: string)
    ensures Lookup(Overlay(base, caller), k) ==
      if CallerValue(caller, k).Some? then CallerValue(caller, k) else Lookup(base, k)
  {
    match caller
    case None =>
    case Some(HeadersObject(entries)) =>
    case Some(HeaderPairs(pairs)) => SetAllLookup(base, pairs, k);
    case Some(HeaderRecord(fields)) => SetTruthyLookup(base, fields, k);
  }

  /** `constructHeaders`: copies the base, then sets the caller's headers one by one. */
  method ConstructHeaders(base: Headers, caller: Option<CallerHeaders>) returns (headers: Headers)
    ensures headers == Overlay(base, caller)
  {
    headers := base;
    if caller.None? {
      return;
    }
    match caller.value {
      case HeadersObject(entries) =>
        var todo := entries.Keys;
        while todo != {}
          invariant todo <= entries.Keys
          invariant headers.Keys == base.Keys + (entries.Keys - todo)
          invariant forall k :: k in headers ==> headers[k] == if k in entries && k !in todo then entries[k] else base[k]
          decreases todo
        {
          var key :| key in todo;
          headers := headers[key := entries[key]];
          todo := todo - {key};
        }
      case HeaderPairs(pairs) =>
        for i := 0 to |pairs|
          invariant headers == SetAll(base, pairs[..i])
        {
          assert pairs[..i + 1][..i] == pairs[..i];
          var (key, value) := pairs[i];
          headers := headers[key := value];
        }
        assert pairs[..|pairs|] == pairs;
      case HeaderRecord(fields) =>
        for i := 0 to |fields|
          invariant headers == SetTruthy(base, fields[..i])
        {
          assert fields[..i + 1][..i] == fields[..i];
          var (key, value) := fields[i];
          if Truthy(value) {
            headers := headers[key := value.value];
          }
        }
        assert fields[..|fields|] == fields;
    }
  }

  /**
   * `getAuthHeaders`: `Authorization: Bearer <access>` exactly when an access
   * token is held, `x-refresh-token: <refresh>` exactly when a refresh token is
   * held, and nothing else.
   */
  function AuthHeaders(c: Credentials): (h: Headers)
    ensures forall k :: k in h <==> (k == AuthorizationHeader && c.access.Some?) || (k == RefreshTokenHeader && c.refresh.Some?)
    ensures c.access.Some? ==> h[AuthorizationHeader] == "Bearer " + c.access.value
    ensures c.refresh.Some? ==> h[RefreshTokenHeader] == c.refresh.value
  {
    var withAccess: Headers := if c.access.Some? then map[AuthorizationHeader := "Bearer " + c.access.value] else map[];
    if c.refresh.Some? then withAccess[RefreshTokenHeader := c.refresh.value] else withAccess
  }

  /** `options` of a call; a missing `options` is `NoOptions`. */
  datatype Options = Options(methodName: Option<string>, headers: Option<CallerHeaders>)

  const NoOptions := Options(None, None)

  /** `HttpClientQueueItem` without its promise callbacks: id, method, url and options. */
  datatype Item = Item(id: string, requestMethod: RequestMethod, url: string, options: Options)

  /** `{ method, ...options }`: a method in the options overrides the item's own. */
  function EffectiveMethod(item: Item): (r: string)
    ensures item.options.methodName.Some? ==> r == item.options.methodName.value
    ensures item.options.methodName.None? ==> ParseMethod(Some(r)) == Success(item.requestMethod)
  {
    ParseMethodName(item.requestMethod);
    item.options.methodName.GetOr(MethodName(item.requestMethod))
  }

  /**
   * The headers `executeRequest` sends: auth headers and `x-request-id`, then
   * the caller's overlay. The client's own names are always present; the
   * caller can only change their values.
   */
  function RequestHeaders(c: Credentials, item: Item): (h: Headers)
    ensures RequestIdHeader in h
    ensures c.access.Some? ==> AuthorizationHeader in h
    ensures c.refresh.Some? ==> RefreshTokenHeader in h
  {
    Overlay(AuthHeaders(c)[RequestIdHeader := item.id], item.options.headers)
  }

  /**
   * A dispatched request carries its item's id under `x-request-id` unless the
   * caller's headers set that name, in which case the caller's value is sent.
   */
  lemma RequestCarriesId(c: Credentials, item: Item)
    ensures var caller := CallerValue(item.options.headers, RequestIdHeader);
      Lookup(RequestHeaders(c, item), RequestIdHeader) == if caller.Some? then caller else Some(item.id)
  {
    OverlayLookup(AuthHeaders(c)[RequestIdHeader := item.id], item.options.headers, RequestIdHeader);
  }

  /**
   * A dispatched request carries the bearer token exactly when one is held,
   * unless the caller's headers set `authorization` themselves.
   */
  lemma RequestCarriesBearer(c: Credentials, item: Item)
    ensures var caller := CallerValue(item.options.headers, AuthorizationHeader);
      Lookup(RequestHeaders(c, item), AuthorizationHeader) ==
        if caller.Some? then caller
        else if c.access.Some? then Some("Bearer " + c.access.value)
        else None
  {
    OverlayLookup(AuthHeaders(c)[RequestIdHeader := item.id], item.options.headers, AuthorizationHeader);
  }

  /**
   * A dispatched request carries the refresh token under `x-refresh-token`
   * exactly when one is held, unless the caller's headers set that name.
   */
  lemma RequestCarriesRefreshToken(c: Credentials, item: Item)
    ensures var caller := CallerValue(item.options.headers, RefreshTokenHeader);
      Lookup(RequestHeaders(c, item), RefreshTokenHeader) ==
        if caller.Some? then caller
        else if c.refresh.Some? then Some(c.refresh.value)
        else None
  {
    OverlayLookup(AuthHeaders(c)[RequestIdHeader := item.id], item.options.headers, RefreshTokenHeader);
  }

  /** Apart from the three names the client sets, a request carries exactly the caller's headers. */
  lemma RequestCarriesCallerHeaders(c: Credentials, item: Item, k: string)
    requires k != AuthorizationHeader && k != RefreshTokenHeader && k != RequestIdHeader
    ensures Lookup(RequestHeaders(c, item), k) == CallerValue(item.options.headers, k)
  {
    OverlayLookup(AuthHeaders(c)[RequestIdHeader := item.id], item.options.headers, k);
  }
}
