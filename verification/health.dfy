/** The Meta health check (`GET /api/meta/health`): ping the Graph API with
    the stored token and classify the service as UP, DEGRADED or DOWN.

    The ping is an oracle reply; the clock readings before and after it are
    parameters, and so is the ISO text of the current time. Parsing the
    `x-app-usage` header as JSON is an oracle that fails when `JSON.parse`
    throws or the parsed value has no fields to read. */
module Health {
  import opened Wrappers
  import opened Text

  /** Meta's default hourly call allowance. */
  const TotalCalls: int := 600
  /** Below this many remaining calls the service is degraded. */
  const LowRemaining: int := 100
  /** Above this latency, in milliseconds, the service is degraded. */
  const HighLatency: int := 2000
  const ApiVersion: string := "v21.0"

  const NoTokenMessage: string := "No access token found"
  const OperationalMessage: string := "All systems operational"

  datatype ServiceStatus = Up | Degraded | Down

  /** The numeric fields of the usage header; `None` is absent (or zero, NaN
      and null, which `|| 0` treats alike). */
  datatype Usage = Usage(callCount: Option<int>, totalCpuTime: Option<int>, totalTime: Option<int>)

  datatype RateLimit = RateLimit(callsUsed: int, totalCalls: int, callsRemaining: int, cpuTime: int, totalTime: int)

  datatype Details = Details(apiVersion: string, rateLimit: Option<RateLimit>, tokenValid: bool)

  datatype HealthReport = HealthReport(
    httpStatus: nat, status: ServiceStatus, latencyMs: int, lastCheck: string,
    lastSuccess: Option<string>, message: string, details: Option<Details>)

  /** The outcome of the `/me` ping: the usage header of a reply, or the
      Graph API's error message and the client's own message. */
  datatype Ping = Pinged(usageHeader: Option<string>) | PingFailed(apiMessage: Option<string>, message: string)

  /** The rate limit read from the usage header: none without a header or
      when it does not parse; otherwise 600 calls, of which `call_count` (or
      0) are used and the difference, unclamped, remains. */
  function RateLimitOf(header: Option<string>, parseUsage: string -> Option<Usage>): (r: Option<RateLimit>)
    ensures r.Some? <==> Truthy(header) && parseUsage(header.value).Some?
    ensures r.Some? ==> r.value.totalCalls == TotalCalls
    ensures r.Some? ==> r.value.callsUsed + r.value.callsRemaining == TotalCalls
    ensures r.Some? ==> r.value.callsUsed == NumOrElse(parseUsage(header.value).value.callCount, 0)
    ensures r.Some? ==>
      var u := parseUsage(header.value).value;
      r.value.cpuTime == (if u.totalCpuTime.Some? then u.totalCpuTime.value else 0) &&
      r.value.totalTime == (if u.totalTime.Some? then u.totalTime.value else 0)
  {
    if !Truthy(header) then None
    else match parseUsage(header.value)
      case None => None
      case Some(u) =>
        var used := NumOrElse(u.callCount, 0);
        Some(RateLimit(used, TotalCalls, TotalCalls - used, NumOrElse(u.totalCpuTime, 0), NumOrElse(u.totalTime, 0)))
  }

  predicate LowOnCalls(rateLimit: Option<RateLimit>) {
    rateLimit.Some? && rateLimit.value.callsRemaining < LowRemaining
  }

  /** The status and message of a successful ping. The latency test runs
      second, so its message wins when both tests fire. */
  function Classify(rateLimit: Option<RateLimit>, latency: int): (r: (ServiceStatus, string))
    ensures r.0 != Down
    ensures r.0 == Up <==> !LowOnCalls(rateLimit) && latency <= HighLatency
    ensures r.0 == Up ==> r.1 == OperationalMessage
    ensures latency > HighLatency ==> r.1 == "High latency detected (" + IntToString(latency) + "ms)"
    ensures LowOnCalls(rateLimit) && latency <= HighLatency ==>
      r.1 == "API rate limit approaching (" + IntToString(rateLimit.value.callsRemaining) + " calls remaining)"
  {
    var (status, message) :=
      if LowOnCalls(rateLimit) then
        (Degraded, "API rate limit approaching (" + IntToString(rateLimit.value.callsRemaining) + " calls remaining)")
      else (Up, OperationalMessage);
    if latency > HighLatency then (Degraded, "High latency detected (" + IntToString(latency) + "ms)")
    else (status, message)
  }

  /** `GET` of the health route. */
  function CheckHealth(
    token: Option<string>, ping: Ping, parseUsage: string -> Option<Usage>,
    startMs: int, endMs: int, nowText: string): (r: HealthReport)
    ensures r.latencyMs == endMs - startMs && r.lastCheck == nowText
    ensures !Truthy(token) ==> r == HealthReport(200, Down, endMs - startMs, nowText, None, NoTokenMessage, None)
    ensures r.status == Down <==> !Truthy(token) || ping.PingFailed?
    ensures r.lastSuccess.Some? <==> r.status != Down
    ensures r.lastSuccess.Some? ==> r.lastSuccess.value == nowText
    ensures Truthy(token) && ping.Pinged? ==>
      r.httpStatus == 200 &&
      r.details == Some(Details(ApiVersion, RateLimitOf(ping.usageHeader, parseUsage), true)) &&
      (r.status, r.message) == Classify(RateLimitOf(ping.usageHeader, parseUsage), endMs - startMs)
    ensures Truthy(token) && ping.PingFailed? ==>
      r.httpStatus == 503 && r.details == Some(Details(ApiVersion, None, false)) &&
      r.message == "API error: " + OrElse(ping.apiMessage, ping.message)
  {
    var latency := endMs - startMs;
    if !Truthy(token) then HealthReport(200, Down, latency, nowText, None, NoTokenMessage, None)
    else match ping
      case PingFailed(apiMessage, message) =>
        HealthReport(503, Down, latency, nowText, None, "API error: " + OrElse(apiMessage, message),
          Some(Details(ApiVersion, None, false)))
      case Pinged(header) =>
        var rateLimit := RateLimitOf(header, parseUsage);
        var (status, message) := Classify(rateLimit, latency);
        HealthReport(200, status, latency, nowText, Some(nowText), message, Some(Details(ApiVersion, rateLimit, true)))
  }

  /** When the service is both slow and low on calls, the report names the
      latency. */
  lemma LatencyMessageOverrides(rateLimit: Option<RateLimit>, latency: int)
    requires LowOnCalls(rateLimit) && latency > HighLatency
    ensures Classify(rateLimit, latency) == (Degraded, "High latency detected (" + IntToString(latency) + "ms)")
  {
  }

  /** A header reporting `n` used calls makes the service degraded exactly
      when more than 500 calls are used, for any fast enough ping. */
  lemma DegradedAboveFiveHundredCalls(header: string, parseUsage: string -> Option<Usage>, n: int, latency: int)
    requires header != "" && parseUsage(header) == Some(Usage(Some(n), None, None))
    requires latency <= HighLatency
    ensures Classify(RateLimitOf(Some(header), parseUsage), latency).0 == Degraded <==> n > TotalCalls - LowRemaining
  {
  }

  /** Without a parseable usage header only latency can degrade the service. */
  lemma NoHeaderOnlyLatencyCounts(parseUsage: string -> Option<Usage>, latency: int)
    ensures Classify(RateLimitOf(None, parseUsage), latency).0 == Up <==> latency <= HighLatency
  {
  }
}
