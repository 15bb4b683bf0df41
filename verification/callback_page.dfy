/** `handleCallback` of the Business Login callback page
    (app/connect/business-callback/page.tsx): read the tokens from the URL
    fragment, choose the stored CSRF state, compare, clear the stored state,
    and hand the token to the store-token route.

    Web storage is a map from key to value; the clock is a parameter in
    milliseconds; the store-token request is an oracle from the body sent to
    the reply received. */
module CallbackPage {
  import opened Wrappers
  import opened Text
  import opened BusinessLogin
  import opened TokenRoutes

  type Storage = map<string, string>

  const StateKey: string := "oauth_state"
  const TimestampKey: string := "oauth_state_timestamp"

  /** Ten minutes, in milliseconds. */
  const MaxStateAge: int := 600000

  const NoTokensError: string := "No tokens received from Facebook. Please try again."
  const ParseFailedError: string := "Failed to parse authentication tokens. Please try again."
  const CsrfError: string := "Security verification failed. Please clear your browser cache and try again."

  /** `storage.getItem(key)`. */
  function GetItem(storage: Storage, key: string): (v: Option<string>)
    ensures v.Some? <==> key in storage
    ensures v.Some? ==> v.value == storage[key]
  {
    if key in storage then Some(storage[key]) else None
  }

  /** The local state is too old: its timestamp is set, reads as a number,
      and lies more than ten minutes in the past. A timestamp `parseInt`
      cannot read gives a NaN age, which is never too old. */
  predicate Stale(local: Storage, now: int) {
    var ts := GetItem(local, TimestampKey);
    Truthy(ts) && ParseInt(ts.value).Some? && now - ParseInt(ts.value).value > MaxStateAge
  }

  /** The stored state the tokens are compared with: the session's when it is
      set and non-empty, else the local one unless it is stale. */
  function StoredState(session: Storage, local: Storage, now: int): (r: Option<string>)
    ensures Truthy(GetItem(session, StateKey)) ==> r == Some(session[StateKey])
    ensures !Truthy(GetItem(session, StateKey)) && Stale(local, now) ==> r.None?
    ensures !Truthy(GetItem(session, StateKey)) && !Stale(local, now) ==> r == GetItem(local, StateKey)
  {
    var sessionState := GetItem(session, StateKey);
    if Truthy(sessionState) then sessionState
    else if Stale(local, now) then None
    else GetItem(local, StateKey)
  }

  /** The CSRF test: the stored state is non-empty and the fragment carries
      exactly it. */
  predicate CsrfPasses(tokens: BusinessTokens, stored: Option<string>) {
    Truthy(stored) && tokens.state == stored
  }

  /** The three keys are removed from the two storages. */
  function ClearState(session: Storage, local: Storage): (r: (Storage, Storage))
    ensures r.0.Keys == session.Keys - {StateKey}
    ensures r.1.Keys == local.Keys - {StateKey, TimestampKey}
    ensures forall k :: k in r.0 ==> r.0[k] == session[k]
    ensures forall k :: k in r.1 ==> r.1[k] == local[k]
  {
    (session - {StateKey}, local - {StateKey, TimestampKey})
  }

  /** The tokens that passed the CSRF test and the storages after clearing. */
  datatype Verified = Verified(tokens: BusinessTokens, session: Storage, local: Storage)

  /** Everything `handleCallback` does before the store request: an error
      message, or the verified tokens with the state cleared. */
  function VerifyCallback(fragment: string, session: Storage, local: Storage, now: int): (r: Result<Verified, string>)
    ensures fragment == "" ==> r == Err(NoTokensError)
    ensures fragment != "" && ParseBusinessLoginTokens(fragment).None? ==> r == Err(ParseFailedError)
    ensures r.Ok? <==>
      (fragment != "" && ParseBusinessLoginTokens(fragment).Some? &&
       CsrfPasses(ParseBusinessLoginTokens(fragment).value, StoredState(session, local, now)))
    ensures r.Err? && fragment != "" && ParseBusinessLoginTokens(fragment).Some? ==> r == Err(CsrfError)
    ensures r.Ok? ==> r.value.tokens == ParseBusinessLoginTokens(fragment).value
    ensures r.Ok? ==> r.value.tokens.state == StoredState(session, local, now) && Truthy(r.value.tokens.state)
    ensures r.Ok? ==> (r.value.session, r.value.local) == ClearState(session, local)
  {
    if fragment == "" then Err(NoTokensError)
    else match ParseBusinessLoginTokens(fragment)
      case None => Err(ParseFailedError)
      case Some(tokens) =>
        if !CsrfPasses(tokens, StoredState(session, local, now)) then Err(CsrfError)
        else
          var (s, l) := ClearState(session, local);
          Ok(Verified(tokens, s, l))
  }

  // ---------------------------------------------------------------- the store request

  /** The body the page posts, as written: the tokens and their lifetime, but
      not the state. */
  function PageBody(tokens: BusinessTokens): (b: StoreTokenBody)
    ensures b.longLivedToken == Some(tokens.longLivedToken) && b.expiresIn == tokens.expiresIn
    ensures b.state.None?
  {
    StoreTokenBody(Some(tokens.accessToken), Some(tokens.longLivedToken), tokens.expiresIn, None)
  }

  /** The body the store-token route expects: the same fields plus the
      verified state. */
  function FixedPageBody(tokens: BusinessTokens): (b: StoreTokenBody)
    ensures b.longLivedToken == Some(tokens.longLivedToken) && b.expiresIn == tokens.expiresIn
    ensures b.state == tokens.state
  {
    StoreTokenBody(Some(tokens.accessToken), Some(tokens.longLivedToken), tokens.expiresIn, tokens.state)
  }

  /** The page's view of the reply: `response.ok` and the `error` field of
      the JSON body, or the message of an error thrown on the way. */
  datatype PostReply = Reply(ok: bool, error: Option<string>) | Thrown(message: string)

  /** What the browser sees when the store-token route answers. */
  function RouteReply(r: JsonReply): (p: PostReply)
    ensures p.Reply? && p.error == r.error
    ensures r.status == 200 ==> p.ok
    ensures r.status in {400, 500} ==> !p.ok
  {
    Reply(200 <= r.status < 300, r.error)
  }

  datatype Status = Succeeded | Failed(message: string)

  /** The page's status once the store request answers: success on an ok
      reply; otherwise the reply's `error`, or the fixed message when it has
      none; or the message of the error thrown on the way. */
  function Outcome(reply: PostReply): (s: Status)
    ensures s.Succeeded? <==> reply.Reply? && reply.ok
    ensures reply.Reply? && !reply.ok ==> s == Failed(OrElse(reply.error, StoreFailedError))
    ensures reply.Thrown? ==> s == Failed(reply.message)
  {
    match reply
    case Reply(true, _) => Succeeded
    case Reply(false, e) => Failed(OrElse(e, StoreFailedError))
    case Thrown(m) => Failed(m)
  }

  /** The page's final status and the storages it leaves. */
  datatype CallbackRun = CallbackRun(status: Status, session: Storage, local: Storage)

  /** `handleCallback` as written: the verified tokens are posted without the
      state. */
  function HandleCallback(fragment: string, session: Storage, local: Storage, now: int, post: StoreTokenBody -> PostReply)
    : (run: CallbackRun)
    ensures var v := VerifyCallback(fragment, session, local, now);
      v.Err? ==> run == CallbackRun(Failed(v.error), session, local)
    ensures var v := VerifyCallback(fragment, session, local, now);
      v.Ok? ==> run.session == v.value.session && run.local == v.value.local
    ensures var v := VerifyCallback(fragment, session, local, now);
      v.Ok? ==> run.status == Outcome(post(PageBody(v.value.tokens)))
  {
    match VerifyCallback(fragment, session, local, now)
    case Err(m) => CallbackRun(Failed(m), session, local)
    case Ok(v) => CallbackRun(Outcome(post(PageBody(v.tokens))), v.session, v.local)
  }

  /** `handleCallback` posting the corrected body, which carries the verified
      state. */
  function FixedHandleCallback(fragment: string, session: Storage, local: Storage, now: int, post: StoreTokenBody -> PostReply)
    : (run: CallbackRun)
    ensures var v := VerifyCallback(fragment, session, local, now);
      v.Err? ==> run == CallbackRun(Failed(v.error), session, local)
    ensures var v := VerifyCallback(fragment, session, local, now);
      v.Ok? ==> run.session == v.value.session && run.local == v.value.local
    ensures var v := VerifyCallback(fragment, session, local, now);
      v.Ok? ==> run.status == Outcome(post(FixedPageBody(v.value.tokens)))
  {
    match VerifyCallback(fragment, session, local, now)
    case Err(m) => CallbackRun(Failed(m), session, local)
    case Ok(v) => CallbackRun(Outcome(post(FixedPageBody(v.tokens))), v.session, v.local)
  }

  // ---------------------------------------------------------------- properties

  /** A non-empty session state is used as is, however old the local
      timestamp. */
  lemma SessionStateNeverAges(session: Storage, local: Storage, now1: int, now2: int)
    requires Truthy(GetItem(session, StateKey))
    ensures StoredState(session, local, now1) == StoredState(session, local, now2) == Some(session[StateKey])
  {
  }

  /** Without a timestamp the local state is never too old. */
  lemma NoTimestampNoAgeCheck(session: Storage, local: Storage, now: int)
    requires !Truthy(GetItem(session, StateKey))
    requires TimestampKey !in local
    ensures StoredState(session, local, now) == GetItem(local, StateKey)
  {
  }

  /** A local state saved more than ten minutes ago is refused even when the
      fragment carries it, and the storages keep it. */
  lemma StaleLocalStateRefused(fragment: string, session: Storage, local: Storage, saved: nat, now: int)
    requires fragment != "" && ParseBusinessLoginTokens(fragment).Some?
    requires !Truthy(GetItem(session, StateKey))
    requires TimestampKey in local && local[TimestampKey] == NatToString(saved)
    requires now - saved > MaxStateAge
    ensures VerifyCallback(fragment, session, local, now) == Err(CsrfError)
  {
    ParseIntOfIntToString(saved);
    assert IntToString(saved) == NatToString(saved);
    assert Stale(local, now);
  }

  /** A refused callback leaves both storages as they were; an accepted one
      removes exactly the three state keys. */
  lemma StorageTouchedOnlyOnSuccess(fragment: string, session: Storage, local: Storage, now: int,
    post: StoreTokenBody -> PostReply)
    ensures var run := HandleCallback(fragment, session, local, now, post);
      VerifyCallback(fragment, session, local, now).Err? ==> run.session == session && run.local == local
    ensures var run := HandleCallback(fragment, session, local, now, post);
      VerifyCallback(fragment, session, local, now).Ok? ==>
        run.session.Keys == session.Keys - {StateKey} &&
        run.local.Keys == local.Keys - {StateKey, TimestampKey}
  {
  }

  /** The body as written never gets past the store-token route: it carries
      no state, so the route answers `Invalid state parameter` whatever
      cookie the browser sends. */
  lemma PageBodyAlwaysRejected(tokens: BusinessTokens, cookieState: Option<string>, now: int, iso: int -> Option<string>)
    requires tokens.longLivedToken != ""
    ensures StoreToken(Some(PageBody(tokens)), cookieState, now, iso) == JsonReply(400, Some(InvalidStateError), [])
  {
    StatelessStoreRejected(PageBody(tokens), cookieState, now, iso);
  }

  /** Every parsed token set has a non-empty long-lived token, so every
      verified callback, posting the body as written to the store-token
      route, ends with the route's `Invalid state parameter`: the token is
      never stored. */
  lemma VerifiedCallbackFailsAsWritten(fragment: string, session: Storage, local: Storage, now: int,
    cookieState: Option<string>, iso: int -> Option<string>)
    requires VerifyCallback(fragment, session, local, now).Ok?
    ensures var post := (b: StoreTokenBody) => RouteReply(StoreToken(Some(b), cookieState, now, iso));
      HandleCallback(fragment, session, local, now, post).status == Failed(InvalidStateError)
  {
    var v := VerifyCallback(fragment, session, local, now).value;
    PageBodyAlwaysRejected(v.tokens, cookieState, now, iso);
  }

  /** With the corrected body, a callback that passed the page's CSRF test is
      stored when the browser's state cookie holds the same state. The
      Business Login start keeps the state only in session storage, so that
      cookie is part of the correction too. */
  lemma FixedCallbackStored(fragment: string, session: Storage, local: Storage, now: int, iso: int -> Option<string>)
    requires VerifyCallback(fragment, session, local, now).Ok?
    requires var v := VerifyCallback(fragment, session, local, now).value;
      iso(ExpiryInstant(now, ExpirySeconds(v.tokens.expiresIn))).Some?
    ensures var post := (b: StoreTokenBody) => RouteReply(StoreToken(Some(b), StoredState(session, local, now), now, iso));
      FixedHandleCallback(fragment, session, local, now, post).status == Succeeded
  {
    var v := VerifyCallback(fragment, session, local, now).value;
    var stored := StoredState(session, local, now);
    var r := StoreToken(Some(FixedPageBody(v.tokens)), stored, now, iso);
    assert StateMatches(FixedPageBody(v.tokens).state, stored);
    assert r.status == 200;
  }
}
