/** The Everreach proxy in front of the MetaCoach API
    (everreach-integration/api-proxy.ts): a map from request key to the last
    good response and the time it was stored, consulted for five minutes.

    The module-level `Map` is a value threaded through the calls. The
    upstream fetch is an oracle reply that carries the clock reading taken
    after it; `now` is the clock reading when the request arrives. Response
    bodies are opaque text. */
module ProxyCache {
  import opened Wrappers
  import opened Text

  /** Five minutes, in milliseconds. */
  const CacheTtl: int := 300000

  const ApiPrefix: string := "/api/meta/"
  const UpstreamError: string := "Failed to fetch from MetaCoach"
  const InternalError: string := "Internal server error"
  const MethodError: string := "Method not allowed"

  datatype Entry = Entry(data: string, timestamp: int)

  type Cache = map<string, Entry>

  /** What the upstream fetch gives: a good response's JSON body and the time
      it arrived, a non-OK status, or a thrown error. */
  datatype Upstream = Fetched(data: string, at: int) | NotOk(status: nat) | Threw(message: string)

  datatype CacheHeader = Hit(ageSeconds: int) | Miss

  /** A reply body: the upstream JSON, an error with the upstream status when
      there is one, or the error of a caught exception with its message. */
  datatype ReplyBody =
    | Data(data: string)
    | ErrorBody(error: string, upstreamStatus: Option<nat>)
    | ExceptionBody(error: string, message: string)

  datatype Reply = Reply(status: nat, body: ReplyBody, cacheHeader: Option<CacheHeader>)

  /** The cache key: the path, followed by `?` and the query when there is
      one. */
  function CacheKey(path: string, query: string): (key: string)
    ensures query == "" ==> key == path
    ensures query != "" ==> key == path + "?" + query && |key| == |path| + 1 + |query|
  {
    if query == "" then path else path + "?" + query
  }

  /** The path below the API prefix: only the first occurrence is removed. */
  function AppPath(pathname: string): (p: string)
    ensures OccursAt(pathname, 0, ApiPrefix) ==> p == pathname[|ApiPrefix|..]
    ensures !Contains(pathname, ApiPrefix) ==> p == pathname
  {
    RemoveFirst(pathname, ApiPrefix)
  }

  /** An entry younger than five minutes; the bound is strict. */
  predicate Fresh(entry: Entry, now: int) {
    now - entry.timestamp < CacheTtl
  }

  predicate Hits(cache: Cache, key: string, now: int) {
    key in cache && Fresh(cache[key], now)
  }

  /** `Math.floor((now - timestamp) / 1000)`. */
  function AgeSeconds(entry: Entry, now: int): (age: int)
    ensures 1000 * age <= now - entry.timestamp < 1000 * age + 1000
  {
    (now - entry.timestamp) / 1000
  }

  /** One request for `key`: the reply and the cache after it. */
  function Serve(cache: Cache, key: string, now: int, upstream: Upstream): (r: (Reply, Cache))
    ensures Hits(cache, key, now) ==>
      r == (Reply(200, Data(cache[key].data), Some(Hit(AgeSeconds(cache[key], now)))), cache)
    ensures !Hits(cache, key, now) && upstream.Fetched? ==>
      r == (Reply(200, Data(upstream.data), Some(Miss)), cache[key := Entry(upstream.data, upstream.at)])
    ensures !Hits(cache, key, now) && upstream.NotOk? ==>
      r == (Reply(upstream.status, ErrorBody(UpstreamError, Some(upstream.status)), None), cache)
    ensures !Hits(cache, key, now) && upstream.Threw? ==>
      r == (Reply(500, ExceptionBody(InternalError, upstream.message), None), cache)
  {
    if Hits(cache, key, now) then
      (Reply(200, Data(cache[key].data), Some(Hit(AgeSeconds(cache[key], now)))), cache)
    else match upstream
      case Fetched(data, at) => (Reply(200, Data(data), Some(Miss)), cache[key := Entry(data, at)])
      case NotOk(status) => (Reply(status, ErrorBody(UpstreamError, Some(status)), None), cache)
      case Threw(m) => (Reply(500, ExceptionBody(InternalError, m), None), cache)
  }

  /** `GET` of the App Router proxy: a request under `/api/meta/` is served
      under the path below that prefix and its query; a path without the
      prefix is keyed as it is. */
  function Get(cache: Cache, pathname: string, query: string, now: int, upstream: Upstream): (r: (Reply, Cache))
    ensures OccursAt(pathname, 0, ApiPrefix) ==>
      r == Serve(cache, CacheKey(pathname[|ApiPrefix|..], query), now, upstream)
    ensures !Contains(pathname, ApiPrefix) ==> r == Serve(cache, CacheKey(pathname, query), now, upstream)
  {
    Serve(cache, CacheKey(AppPath(pathname), query), now, upstream)
  }

  /** The Pages Router handler: a request whose method `verb` is not `GET` is refused before the
      cache is looked at; the path segments are joined with `/`. */
  function Handler(cache: Cache, verb: string, segments: seq<string>, query: string, now: int, upstream: Upstream)
    : (r: (Reply, Cache))
    ensures verb != "GET" ==> r == (Reply(405, ErrorBody(MethodError, None), None), cache)
    ensures verb == "GET" && |segments| >= 1 ==> r == Serve(cache, CacheKey(Join(segments, '/'), query), now, upstream)
  {
    if verb != "GET" then (Reply(405, ErrorBody(MethodError, None), None), cache)
    else
      var path := if |segments| >= 1 then Join(segments, '/') else "";
      Serve(cache, CacheKey(path, query), now, upstream)
  }

  // ---------------------------------------------------------------- properties

  /** A hit makes no use of the upstream reply. */
  lemma HitIgnoresUpstream(cache: Cache, key: string, now: int, u1: Upstream, u2: Upstream)
    requires Hits(cache, key, now)
    ensures Serve(cache, key, now, u1) == Serve(cache, key, now, u2)
    ensures Serve(cache, key, now, u1).1 == cache
  {
  }

  /** Only the requested key can change, it changes only on a good response,
      and no key is ever removed. */
  lemma OnlyRequestedKeyChanges(cache: Cache, key: string, now: int, upstream: Upstream)
    ensures var after := Serve(cache, key, now, upstream).1;
      cache.Keys <= after.Keys && after.Keys <= cache.Keys + {key} &&
      (forall k :: k in cache && k != key ==> after[k] == cache[k])
    ensures !upstream.Fetched? ==> Serve(cache, key, now, upstream).1 == cache
  {
  }

  /** An expired entry stays in place when its refresh fails. */
  lemma FailedRefreshKeepsStaleEntry(cache: Cache, key: string, now: int, upstream: Upstream)
    requires key in cache && !Fresh(cache[key], now)
    requires !upstream.Fetched?
    ensures var after := Serve(cache, key, now, upstream).1;
      key in after && after[key] == cache[key]
  {
  }

  /** A good response is served from the cache to any request for the same
      key that arrives less than five minutes after it. */
  lemma FillThenHit(cache: Cache, key: string, now: int, data: string, at: int, later: int, upstream: Upstream)
    requires !Hits(cache, key, now)
    requires later - at < CacheTtl
    ensures var filled := Serve(cache, key, now, Fetched(data, at)).1;
      Serve(filled, key, later, upstream) == (Reply(200, Data(data), Some(Hit(AgeSeconds(Entry(data, at), later)))), filled)
  {
  }

  /** One request to the App Router proxy. */
  datatype Request = Request(pathname: string, query: string, now: int, upstream: Upstream)

  function RequestKey(q: Request): string {
    CacheKey(AppPath(q.pathname), q.query)
  }

  /** Serve a series of requests in order, threading the cache through. The
      cache only grows, every key it gains was requested, and an entry whose
      key was never requested is the one it started with. */
  method ServeAll(cache: Cache, requests: seq<Request>) returns (replies: seq<Reply>, final: Cache)
    ensures |replies| == |requests|
    ensures cache.Keys <= final.Keys
    ensures forall k :: k in final && k !in cache ==> exists j :: 0 <= j < |requests| && RequestKey(requests[j]) == k
    ensures forall k :: k in cache && (forall j :: 0 <= j < |requests| ==> RequestKey(requests[j]) != k) ==>
      final[k] == cache[k]
    ensures forall j :: 0 <= j < |requests| && !requests[j].upstream.Fetched? ==> replies[j].cacheHeader != Some(Miss)
  {
    replies := [];
    final := cache;
    var i := 0;
    while i < |requests|
      invariant 0 <= i <= |requests|
      invariant |replies| == i
      invariant cache.Keys <= final.Keys
      invariant forall k :: k in final && k !in cache ==> exists j :: 0 <= j < i && RequestKey(requests[j]) == k
      invariant forall k :: k in cache && (forall j :: 0 <= j < i ==> RequestKey(requests[j]) != k) ==>
        final[k] == cache[k]
      invariant forall j :: 0 <= j < i && !requests[j].upstream.Fetched? ==> replies[j].cacheHeader != Some(Miss)
    {
      var q := requests[i];
      var (reply, next) := Get(final, q.pathname, q.query, q.now, q.upstream);
      OnlyRequestedKeyChanges(final, RequestKey(q), q.now, q.upstream);
      replies := replies + [reply];
      final := next;
      i := i + 1;
    }
  }
}
