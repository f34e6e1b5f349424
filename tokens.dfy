/**
 * The credential side of src/http-client.ts: the two tokens the `Storage`
 * holds, the proactive expiry test `shouldRefreshAccessToken`, and the effect a
 * reply of the refresh endpoint has on the stored tokens (`refreshToken`).
 */
module Tokens {
  import opened Wrappers

  /** What `Storage` holds: an access token and a refresh token, each possibly null. */
  datatype Credentials = Credentials(access: Option<string>, refresh: Option<string>)

  const NoCredentials := Credentials(None, None)

  /** `milliseconds.second` (src/constants.ts:2). */
  const SecondMs := 1000

  /** The safety margin `buffer`: a token within ten seconds of expiry counts as expired. */
  const ExpiryBufferMs := 10 * SecondMs

  /**
   * `shouldRefreshAccessToken`: false without a refresh token; otherwise whether
   * `now` plus the buffer passes the expiration (`getTokenExpiration()`, in
   * seconds, a missing one read as 0). `now` is `Date.now()` in milliseconds.
   */
  function ShouldRefreshAccessToken(c: Credentials, expiration: Option<int>, now: int): (r: bool)
    ensures r ==> c.refresh.Some?
  {
    if c.refresh.None? then false
    else now + ExpiryBufferMs > expiration.GetOr(0) * SecondMs
  }

  /**
   * The test stated as remaining lifetime: with a refresh token held, a refresh
   * is due exactly when less than ten seconds (10000 ms) of the token's life
   * remain (a missing expiration is the epoch).
   */
  lemma RefreshDueWithinTenSeconds(c: Credentials, expiration: Option<int>, now: int)
    requires c.refresh.Some?
    ensures ShouldRefreshAccessToken(c, expiration, now) <==> expiration.GetOr(0) * 1000 - now < 10000
  {
  }

  /** A token whose expiration is unknown is always refreshed, at any non-negative time. */
  lemma MissingExpirationCountsAsExpired(c: Credentials, now: int)
    requires c.refresh.Some? && now >= 0
    ensures ShouldRefreshAccessToken(c, None, now)
  {
  }

  /** Once a refresh is due it stays due as the clock advances. */
  lemma RefreshStaysDue(c: Credentials, expiration: Option<int>, now: int, later: int)
    requires now <= later && ShouldRefreshAccessToken(c, expiration, now)
    ensures ShouldRefreshAccessToken(c, expiration, later)
  {
  }

  /** A reply of the refresh endpoint: its HTTP status and the `token` of its JSON body. */
  datatype RefreshReply = RefreshReply(status: int, token: string)

  /** `Response.ok`: the status is in the range 200-299. */
  predicate IsOk(status: int) {
    200 <= status <= 299
  }

  /**
   * The tokens after `refreshToken` has seen `reply`: a failed reply clears both
   * tokens, an ok one replaces the access token and keeps the refresh token.
   */
  function AfterRefresh(c: Credentials, reply: RefreshReply): (r: Credentials)
    ensures !IsOk(reply.status) ==> r == NoCredentials
    ensures IsOk(reply.status) ==> r.access == Some(reply.token) && r.refresh == c.refresh
  {
    if !IsOk(reply.status) then NoCredentials
    else c.(access := Some(reply.token))
  }

  /** A refresh never invents a refresh token: it keeps the held one or drops it. */
  lemma RefreshKeepsOrDropsRefreshToken(c: Credentials, reply: RefreshReply)
    ensures AfterRefresh(c, reply).refresh in {c.refresh, None}
  {
  }

  /** After a failed refresh no further refresh is ever due, whatever the clock says. */
  lemma FailedRefreshStopsRefreshing(c: Credentials, reply: RefreshReply, expiration: Option<int>, now: int)
    requires !IsOk(reply.status)
    ensures !ShouldRefreshAccessToken(AfterRefresh(c, reply), expiration, now)
  {
  }
}
