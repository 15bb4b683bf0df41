/** The two server routes that turn a login into cookies:
    `POST /api/meta/business-login/store-token` and
    `GET /api/meta/oauth/callback`.

    The JSON body arrives already decoded (`None` when `req.json()` throws);
    the code-for-token exchanges are oracles; `toISOString` is an oracle that
    fails (throws a `RangeError`) for time values out of range; `now` is the
    wall clock in milliseconds. */
module TokenRoutes {
  import opened Wrappers
  import opened Text

  /** Sixty days, in seconds: the token lifetime assumed when none is given. */
  const DefaultExpiry: int := 5184000

  const AccessTokenCookie: string := "meta_access_token"
  const ExpiresCookie: string := "meta_token_expires"
  const StateCookie: string := "oauth_state"

  datatype CookieOp = SetCookie(name: string, value: string, maxAge: int) | DeleteCookie(name: string)

  /** `expiresIn || 5184000`: absent, NaN and 0 all mean sixty days. */
  function ExpirySeconds(expiresIn: Option<int>): (s: int)
    ensures (expiresIn.None? || expiresIn.value == 0) ==> s == DefaultExpiry
    ensures expiresIn.Some? && expiresIn.value != 0 ==> s == expiresIn.value
    ensures s != 0
  {
    NumOrElse(expiresIn, DefaultExpiry)
  }

  /** `d.setSeconds(d.getSeconds() + s)` on a date read at `now`. */
  function ExpiryInstant(now: int, seconds: int): (t: int)
    ensures t - now == 1000 * seconds
  {
    now + seconds * 1000
  }

  /** The cookie writes of a stored token: both cookies live as long as the
      token, and the CSRF state cookie is cleared. */
  function TokenCookies(token: string, seconds: int, expiresText: string): (ops: seq<CookieOp>)
    ensures |ops| == 3
    ensures ops[0] == SetCookie(AccessTokenCookie, token, seconds)
    ensures ops[1].SetCookie? && ops[1].name == ExpiresCookie && ops[1].maxAge == seconds
    ensures ops[2] == DeleteCookie(StateCookie)
  {
    [SetCookie(AccessTokenCookie, token, seconds), SetCookie(ExpiresCookie, expiresText, seconds), DeleteCookie(StateCookie)]
  }

  /** `!given || !stored || given !== stored` is false. */
  predicate StateMatches(given: Option<string>, stored: Option<string>) {
    Truthy(given) && Truthy(stored) && given.value == stored.value
  }

  // ---------------------------------------------------------------- store-token

  const MissingTokenError: string := "Missing long-lived token"
  const InvalidStateError: string := "Invalid state parameter"
  const StoreFailedError: string := "Failed to store token"

  /** The fields of the request body the route reads; `None` is a missing or
      null field (a NaN number arrives as null). */
  datatype StoreTokenBody = StoreTokenBody(
    accessToken: Option<string>, longLivedToken: Option<string>, expiresIn: Option<int>, state: Option<string>)

  /** A JSON response: its status, its `error` field, and the cookie writes. */
  datatype JsonReply = JsonReply(status: nat, error: Option<string>, cookies: seq<CookieOp>)

  /** `POST` of the store-token route. */
  function StoreToken(body: Option<StoreTokenBody>, cookieState: Option<string>, now: int, iso: int -> Option<string>)
    : (r: JsonReply)
    ensures r.status == 200 <==>
      (body.Some? && Truthy(body.value.longLivedToken) && StateMatches(body.value.state, cookieState) &&
       iso(ExpiryInstant(now, ExpirySeconds(body.value.expiresIn))).Some?)
    ensures body.Some? && !Truthy(body.value.longLivedToken) ==> r == JsonReply(400, Some(MissingTokenError), [])
    ensures body.Some? && Truthy(body.value.longLivedToken) && !StateMatches(body.value.state, cookieState) ==>
      r == JsonReply(400, Some(InvalidStateError), [])
    ensures r.status == 500 ==> r == JsonReply(500, Some(StoreFailedError), [])
    ensures body.None? ==> r == JsonReply(500, Some(StoreFailedError), [])
    ensures (body.Some? && Truthy(body.value.longLivedToken) && StateMatches(body.value.state, cookieState) &&
             iso(ExpiryInstant(now, ExpirySeconds(body.value.expiresIn))).None?) ==>
      r == JsonReply(500, Some(StoreFailedError), [])
    ensures r.status == 200 ==> r.error.None?
    ensures r.status == 200 ==>
      r.cookies == TokenCookies(body.value.longLivedToken.value, ExpirySeconds(body.value.expiresIn),
        iso(ExpiryInstant(now, ExpirySeconds(body.value.expiresIn))).value)
    ensures r.status in {200, 400, 500}
  {
    match body
    case None => JsonReply(500, Some(StoreFailedError), [])
    case Some(b) =>
      if !Truthy(b.longLivedToken) then JsonReply(400, Some(MissingTokenError), [])
      else if !StateMatches(b.state, cookieState) then JsonReply(400, Some(InvalidStateError), [])
      else
        var seconds := ExpirySeconds(b.expiresIn);
        match iso(ExpiryInstant(now, seconds))
        case None => JsonReply(500, Some(StoreFailedError), [])
        case Some(text) => JsonReply(200, None, TokenCookies(b.longLivedToken.value, seconds, text))
  }

  /** The token test comes first: a body without a long-lived token gets the
      same answer whatever state it and the cookie carry. */
  lemma TokenCheckPrecedesStateCheck(
    b1: StoreTokenBody, b2: StoreTokenBody, c1: Option<string>, c2: Option<string>, now: int, iso: int -> Option<string>)
    requires !Truthy(b1.longLivedToken) && !Truthy(b2.longLivedToken)
    ensures StoreToken(Some(b1), c1, now, iso) == StoreToken(Some(b2), c2, now, iso)
    ensures StoreToken(Some(b1), c1, now, iso).error == Some(MissingTokenError)
  {
  }

  /** A body without a state is rejected whatever cookie the browser holds,
      and so is any body when the browser holds no state cookie. */
  lemma StatelessStoreRejected(b: StoreTokenBody, cookieState: Option<string>, now: int, iso: int -> Option<string>)
    requires Truthy(b.longLivedToken)
    requires !Truthy(b.state) || !Truthy(cookieState)
    ensures StoreToken(Some(b), cookieState, now, iso) == JsonReply(400, Some(InvalidStateError), [])
  {
  }

  // ---------------------------------------------------------------- OAuth callback

  const InvalidStateRedirect: string := "/connect?error=invalid_state"
  const NoCodeRedirect: string := "/connect?error=no_code"
  const CallbackFailedRedirect: string := "/connect?error=callback_failed"
  const DashboardRedirect: string := "/dashboard"

  /** What `exchangeForLongLivedToken` returns. */
  datatype LongLivedToken = LongLivedToken(accessToken: string, expiresIn: Option<int>)

  /** The Graph API exchanges: code to short-lived token, short-lived to
      long-lived token; `Err` is a thrown error. */
  datatype Exchange = Exchange(
    codeForToken: string -> Result<string, string>,
    longLived: string -> Result<LongLivedToken, string>)

  /** A redirect response: its target and the cookie writes. */
  datatype RedirectReply = RedirectReply(location: string, cookies: seq<CookieOp>)

  /** The long-lived token reached by the two exchanges, if both succeed. */
  function ExchangedToken(code: string, exchange: Exchange): Option<LongLivedToken> {
    match exchange.codeForToken(code)
    case Err(_) => None
    case Ok(shortLived) =>
      match exchange.longLived(shortLived)
      case Err(_) => None
      case Ok(t) => Some(t)
  }

  /** `GET` of the OAuth callback, given the query's `code` and `state`. */
  function OAuthCallback(
    code: Option<string>, state: Option<string>, cookieState: Option<string>, now: int,
    exchange: Exchange, iso: int -> Option<string>): (r: RedirectReply)
    ensures !StateMatches(state, cookieState) ==> r == RedirectReply(InvalidStateRedirect, [])
    ensures StateMatches(state, cookieState) && !Truthy(code) ==> r == RedirectReply(NoCodeRedirect, [])
    ensures StateMatches(state, cookieState) && Truthy(code) && ExchangedToken(code.value, exchange).None? ==>
      r == RedirectReply(CallbackFailedRedirect, [])
    ensures r.location == DashboardRedirect <==>
      (StateMatches(state, cookieState) && Truthy(code) && ExchangedToken(code.value, exchange).Some? &&
       iso(ExpiryInstant(now, ExpirySeconds(ExchangedToken(code.value, exchange).value.expiresIn))).Some?)
    ensures r.location == DashboardRedirect ==>
      var t := ExchangedToken(code.value, exchange).value;
      r.cookies == TokenCookies(t.accessToken, ExpirySeconds(t.expiresIn),
        iso(ExpiryInstant(now, ExpirySeconds(t.expiresIn))).value)
    ensures r.location != DashboardRedirect ==> r.cookies == []
    ensures StateMatches(state, cookieState) && Truthy(code) && r.location != DashboardRedirect ==>
      r == RedirectReply(CallbackFailedRedirect, [])
  {
    if !StateMatches(state, cookieState) then RedirectReply(InvalidStateRedirect, [])
    else if !Truthy(code) then RedirectReply(NoCodeRedirect, [])
    else match ExchangedToken(code.value, exchange)
      case None => RedirectReply(CallbackFailedRedirect, [])
      case Some(t) =>
        var seconds := ExpirySeconds(t.expiresIn);
        match iso(ExpiryInstant(now, seconds))
        case None => RedirectReply(CallbackFailedRedirect, [])
        case Some(text) => RedirectReply(DashboardRedirect, TokenCookies(t.accessToken, seconds, text))
  }

  /** The state test precedes the code test: with a bad state the code is
      never looked at and no exchange is attempted. */
  lemma StateCheckPrecedesCodeCheck(
    c1: Option<string>, c2: Option<string>, state: Option<string>, cookieState: Option<string>, now: int,
    e1: Exchange, e2: Exchange, iso: int -> Option<string>)
    requires !StateMatches(state, cookieState)
    ensures OAuthCallback(c1, state, cookieState, now, e1, iso) == OAuthCallback(c2, state, cookieState, now, e2, iso)
  {
  }

  /** Both routes store a token the same way: given the same token, lifetime
      and clock, the store-token route and the OAuth callback write the same
      cookies. */
  lemma RoutesAgreeOnCookies(
    token: string, expiresIn: Option<int>, state: string, now: int, code: string,
    exchange: Exchange, iso: int -> Option<string>)
    requires token != "" && state != "" && code != ""
    requires ExchangedToken(code, exchange) == Some(LongLivedToken(token, expiresIn))
    requires iso(ExpiryInstant(now, ExpirySeconds(expiresIn))).Some?
    ensures var stored := StoreToken(Some(StoreTokenBody(None, Some(token), expiresIn, Some(state))), Some(state), now, iso);
      var redirected := OAuthCallback(Some(code), Some(state), Some(state), now, exchange, iso);
      stored.status == 200 && redirected.location == DashboardRedirect && stored.cookies == redirected.cookies
  {
  }
}
