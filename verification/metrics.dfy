/** The metrics summary (`GET /api/meta/metrics`): organic totals over the
    media of a period, the engagement rate, the ad totals, and the list of
    metric points.

    Every Graph API call is an oracle reply in `GraphApi`; date parsing is an
    oracle from text to `Instant`; the default period bounds (a week ago and
    now, as ISO text) are parameters. A media item's insights are the reply
    items of its insights request folded into a map from metric name to
    value, as the client library does. */
module Metrics {
  import opened Wrappers
  import opened Text
  import opened Media
  import opened InstagramMediaOps

  const NotAuthenticatedError: string := "Not authenticated"
  const NoAccountError: string := "No Instagram Business Account found"
  const FetchFailedError: string := "Failed to fetch metrics"

  // ---------------------------------------------------------------- sums

  /** The sum of `f` over `s`. */
  function SumOf<T>(s: seq<T>, f: T -> int): int {
    if s == [] then 0 else f(s[0]) + SumOf(s[1..], f)
  }

  function SumOfReal<T>(s: seq<T>, f: T -> real): real {
    if s == [] then 0.0 else f(s[0]) + SumOfReal(s[1..], f)
  }

  lemma {:induction false} SumOfAppend<T>(a: seq<T>, b: seq<T>, f: T -> int)
    ensures SumOf(a + b, f) == SumOf(a, f) + SumOf(b, f)
    decreases |a|
  {
    if a == [] {
      assert a + b == b;
    } else {
      assert (a + b)[1..] == a[1..] + b;
      SumOfAppend(a[1..], b, f);
    }
  }

  lemma {:induction false} SumOfZero<T>(s: seq<T>, f: T -> int)
    requires forall k :: 0 <= k < |s| ==> f(s[k]) == 0
    ensures SumOf(s, f) == 0
    decreases |s|
  {
    if s != [] {
      SumOfZero(s[1..], f);
    }
  }

  // ---------------------------------------------------------------- period

  /** `a >= b` on dates: false when either is invalid. */
  predicate AtLeast(a: Instant, b: Instant) {
    a.Time? && b.Time? && a.ms >= b.ms
  }

  /** `new Date(m.timestamp || '')`. */
  function DateOf(media: InstagramMedia, parseDate: string -> Instant): Instant {
    if media.timestamp == "" then InvalidDate else parseDate(media.timestamp)
  }

  predicate InPeriod(d: Instant, from: Instant, to: Instant) {
    AtLeast(d, from) && AtLeast(to, d)
  }

  /** Both ends of the period are included; an invalid date on either side
      excludes every item. */
  lemma InPeriodInclusive(d: Instant, from: Instant, to: Instant)
    ensures InPeriod(d, from, to) <==> d.Time? && from.Time? && to.Time? && from.ms <= d.ms <= to.ms
    ensures from.Time? && to.Time? ==> InPeriod(from, from, to) == (from.ms <= to.ms)
  {
  }

  /** The media of the period, in their original order. */
  function MediaInPeriod(all: seq<InstagramMedia>, from: Instant, to: Instant, parseDate: string -> Instant)
    : (r: seq<InstagramMedia>)
    ensures |r| <= |all|
    ensures forall m :: m in r <==> m in all && InPeriod(DateOf(m, parseDate), from, to)
    ensures forall m :: multiset(r)[m] == if InPeriod(DateOf(m, parseDate), from, to) then multiset(all)[m] else 0
  {
    if all == [] then []
    else
      var rest := MediaInPeriod(all[1..], from, to, parseDate);
      assert all == [all[0]] + all[1..];
      assert forall m :: m in all <==> m == all[0] || m in all[1..];
      if InPeriod(DateOf(all[0], parseDate), from, to) then [all[0]] + rest else rest
  }

  /** Media outside the period change nothing. */
  lemma {:induction false} OutOfPeriodMediaIgnored(
    all: seq<InstagramMedia>, m: InstagramMedia, from: Instant, to: Instant, parseDate: string -> Instant)
    requires !InPeriod(DateOf(m, parseDate), from, to)
    ensures MediaInPeriod(all + [m], from, to, parseDate) == MediaInPeriod(all, from, to, parseDate)
    decreases |all|
  {
    if all == [] {
      assert [] + [m] == [m];
      assert [m][1..] == [];
    } else {
      assert (all + [m])[0] == all[0];
      assert (all + [m])[1..] == all[1..] + [m];
      OutOfPeriodMediaIgnored(all[1..], m, from, to, parseDate);
    }
  }

  // ---------------------------------------------------------------- insights

  /** The names requested from the insights endpoint. */
  const RequestedMetrics: seq<string> := ["reach", "likes", "comments", "shares", "saves", "plays", "total_interactions"]

  const ReachKey: string := "reach"
  /** The key the route reads engagement from. */
  const AsWrittenEngagementKey: string := "engagement"
  /** The requested metric that counts a post's interactions. */
  const EngagementKey: string := "total_interactions"

  /** One item of an insights reply: a metric name and its first value. */
  datatype InsightItem = InsightItem(name: string, value: Option<int>)

  type Insights = map<string, int>

  /** The client's fold of the reply: each item sets its name to its value
      (or 0), later items overwriting earlier ones. */
  function FoldInsights(items: seq<InsightItem>): (m: Insights)
    ensures forall name :: name in m <==> exists k :: 0 <= k < |items| && items[k].name == name
    decreases |items|
  {
    if items == [] then map[]
    else
      var last := items[|items| - 1];
      var prefix := items[..|items| - 1];
      var m := FoldInsights(prefix);
      assert forall k :: 0 <= k < |prefix| ==> prefix[k] == items[k];
      m[last.name := NumOrElse(last.value, 0)]
  }

  /** The insights of a media item: an empty map when the request failed,
      since the client then returns `{}`. */
  function InsightsOf(reply: Option<seq<InsightItem>>): Insights {
    if reply.Some? then FoldInsights(reply.value) else map[]
  }

  /** `insights[key] || 0`. */
  function Field(insights: Insights, key: string): int {
    if key in insights then insights[key] else 0
  }

  /** The sum of one insight field over the given media. */
  function TotalOf(media: seq<InstagramMedia>, insightsOf: string -> Option<seq<InsightItem>>, key: string): int {
    SumOf(media, (m: InstagramMedia) => Field(InsightsOf(insightsOf(m.id)), key))
  }

  /** The last item naming a metric sets its value. */
  lemma LastItemWins(items: seq<InsightItem>, item: InsightItem)
    ensures Field(FoldInsights(items + [item]), item.name) == NumOrElse(item.value, 0)
  {
    var all := items + [item];
    assert all[..|all| - 1] == items;
  }

  /** An item leaves every other name where the earlier items put it. */
  lemma OtherNamesUnchanged(items: seq<InsightItem>, item: InsightItem, name: string)
    requires name != item.name
    ensures Field(FoldInsights(items + [item]), name) == Field(FoldInsights(items), name)
  {
    var all := items + [item];
    assert all[..|all| - 1] == items;
  }

  /** Every name ends up with the value of its last item, wherever that item
      stands in the reply. */
  lemma {:induction false} LastOccurrenceWins(items: seq<InsightItem>, k: nat)
    requires k < |items|
    requires forall j :: k < j < |items| ==> items[j].name != items[k].name
    ensures Field(FoldInsights(items), items[k].name) == NumOrElse(items[k].value, 0)
    decreases |items|
  {
    var prefix := items[..|items| - 1];
    var last := items[|items| - 1];
    assert items == prefix + [last];
    if k == |items| - 1 {
      LastItemWins(prefix, last);
    } else {
      assert prefix[k] == items[k];
      assert forall j :: k < j < |prefix| ==> prefix[j] == items[j];
      LastOccurrenceWins(prefix, k);
      OtherNamesUnchanged(prefix, last, items[k].name);
    }
  }

  /** `engagement` is not among the requested names: no requested name has
      its length. */
  lemma EngagementKeyNotRequested()
    ensures AsWrittenEngagementKey !in RequestedMetrics
  {
    assert |AsWrittenEngagementKey| == 10;
    assert forall k :: 0 <= k < |RequestedMetrics| ==> |RequestedMetrics[k]| != 10;
  }

  /** A reply that only names requested metrics never sets `engagement`. */
  lemma AsWrittenEngagementIsZero(items: seq<InsightItem>)
    requires forall k :: 0 <= k < |items| ==> items[k].name in RequestedMetrics
    ensures Field(FoldInsights(items), AsWrittenEngagementKey) == 0
  {
    EngagementKeyNotRequested();
    forall k | 0 <= k < |items|
      ensures items[k].name != AsWrittenEngagementKey
    {
      assert items[k].name in RequestedMetrics;
    }
  }

  /** So the route as written reports a total engagement of 0 whatever the
      posts' interactions, as long as the API answers only what was asked. */
  lemma AsWrittenTotalEngagementIsZero(media: seq<InstagramMedia>, insightsOf: string -> Option<seq<InsightItem>>)
    requires forall m, k :: m in media && insightsOf(m.id).Some? && 0 <= k < |insightsOf(m.id).value| ==>
      insightsOf(m.id).value[k].name in RequestedMetrics
    ensures TotalOf(media, insightsOf, AsWrittenEngagementKey) == 0
  {
    var f := (m: InstagramMedia) => Field(InsightsOf(insightsOf(m.id)), AsWrittenEngagementKey);
    forall k | 0 <= k < |media|
      ensures f(media[k]) == 0
    {
      var reply := insightsOf(media[k].id);
      if reply.Some? {
        AsWrittenEngagementIsZero(reply.value);
      }
    }
    SumOfZero(media, f);
  }

  /** A post with 15 interactions: the key as written reads 0, the
      requested metric reads 15. */
  lemma EngagementKeyCounterexample()
    ensures var items := [InsightItem("reach", Some(120)), InsightItem("total_interactions", Some(15))];
      Field(FoldInsights(items), AsWrittenEngagementKey) == 0 && Field(FoldInsights(items), EngagementKey) == 15
  {
    var items := [InsightItem("reach", Some(120)), InsightItem("total_interactions", Some(15))];
    AsWrittenEngagementIsZero(items);
    LastItemWins([InsightItem("reach", Some(120))], InsightItem("total_interactions", Some(15)));
    assert [InsightItem("reach", Some(120))] + [InsightItem("total_interactions", Some(15))] == items;
  }

  /** The engagement rate in percent, 0 for no reach. */
  function EngagementRate(reach: int, engagement: int): (r: real)
    ensures reach <= 0 ==> r == 0.0
    ensures reach > 0 ==> r * reach as real == engagement as real * 100.0
  {
    if reach > 0 then (engagement as real / reach as real) * 100.0 else 0.0
  }

  /** No engagement gives a zero rate, whatever the reach. */
  lemma NoEngagementNoRate(reach: int)
    ensures EngagementRate(reach, 0) == 0.0
  {
  }

  // ---------------------------------------------------------------- ads

  /** An action of a campaign's insights; `None` is an absent value. */
  datatype Action = Action(actionType: string, value: Option<int>)

  /** A campaign's insights; `None` fields are absent and count as 0. */
  datatype CampaignInsights = CampaignInsights(
    spend: Option<real>, impressions: Option<int>, clicks: Option<int>, actions: Option<seq<Action>>)

  datatype Campaign = Campaign(insights: Option<CampaignInsights>)

  /** The ad lookups: a thrown error, no ad account, or the campaigns of the
      first account. */
  datatype AdsReply = AdsFailed | NoAdAccounts | Campaigns(campaigns: seq<Campaign>)

  predicate IsPurchase(actionType: string) {
    actionType == "purchase" || actionType == "offsite_conversion.fb_pixel_purchase"
  }

  function ActionConversions(a: Action): int {
    if IsPurchase(a.actionType) then NumOrElse(a.value, 0) else 0
  }

  function CampaignConversions(c: Campaign): int {
    if c.insights.Some? && c.insights.value.actions.Some? then SumOf(c.insights.value.actions.value, ActionConversions)
    else 0
  }

  function CampaignSpend(c: Campaign): real {
    if c.insights.Some? && c.insights.value.spend.Some? then c.insights.value.spend.value else 0.0
  }

  function CampaignImpressions(c: Campaign): int {
    if c.insights.Some? then NumOrElse(c.insights.value.impressions, 0) else 0
  }

  function CampaignClicks(c: Campaign): int {
    if c.insights.Some? then NumOrElse(c.insights.value.clicks, 0) else 0
  }

  /** Actions of any other type count for nothing. */
  lemma OtherActionsIgnored(actions: seq<Action>, a: Action)
    requires !IsPurchase(a.actionType)
    ensures SumOf(actions + [a], ActionConversions) == SumOf(actions, ActionConversions)
  {
    SumOfAppend(actions, [a], ActionConversions);
  }

  /** A campaign without insights counts for nothing. */
  lemma CampaignWithoutInsightsIgnored(campaigns: seq<Campaign>)
    ensures SumOf(campaigns + [Campaign(None)], CampaignConversions) == SumOf(campaigns, CampaignConversions)
    ensures SumOf(campaigns + [Campaign(None)], CampaignClicks) == SumOf(campaigns, CampaignClicks)
  {
    SumOfAppend(campaigns, [Campaign(None)], CampaignConversions);
    SumOfAppend(campaigns, [Campaign(None)], CampaignClicks);
  }

  datatype AdMetrics = AdMetrics(spend: real, impressions: int, clicks: int, conversions: int, roas: Option<real>)

  /** The ad totals, when the ad lookups succeeded and an account exists;
      `roas` (conversions per unit spent) exists only for a positive spend. */
  function AdMetricsOf(reply: AdsReply): (r: Option<AdMetrics>)
    ensures r.Some? <==> reply.Campaigns?
    ensures r.Some? ==> r.value.conversions == SumOf(reply.campaigns, CampaignConversions)
    ensures r.Some? ==> r.value.spend == SumOfReal(reply.campaigns, CampaignSpend)
    ensures r.Some? ==> r.value.impressions == SumOf(reply.campaigns, CampaignImpressions)
    ensures r.Some? ==> r.value.clicks == SumOf(reply.campaigns, CampaignClicks)
    ensures r.Some? ==> (r.value.roas.Some? <==> r.value.spend > 0.0)
    ensures r.Some? && r.value.roas.Some? ==> r.value.roas.value * r.value.spend == r.value.conversions as real
  {
    match reply
    case Campaigns(cs) =>
      var spend := SumOfReal(cs, CampaignSpend);
      var conversions := SumOf(cs, CampaignConversions);
      Some(AdMetrics(spend, SumOf(cs, CampaignImpressions), SumOf(cs, CampaignClicks), conversions,
        if spend > 0.0 then Some(conversions as real / spend) else None))
    case _ => None
  }

  // ---------------------------------------------------------------- metric list

  datatype MetricPoint = MetricPoint(name: string, value: real, timestamp: string, unit: string)

  /** The organic points, then the ad points when there are ad totals, then
      the roas point when it is defined; all stamped with the period's end. */
  function MetricPoints(to: string, posts: nat, reach: int, engagement: int, rate: real, ads: Option<AdMetrics>)
    : (r: seq<MetricPoint>)
    ensures |r| == if ads.None? then 4 else if ads.value.roas.None? then 8 else 9
    ensures forall k :: 0 <= k < |r| ==> r[k].timestamp == to
    ensures r[0] == MetricPoint("meta.organic.posts", posts as real, to, "count")
    ensures r[1] == MetricPoint("meta.organic.reach", reach as real, to, "count")
    ensures r[2] == MetricPoint("meta.organic.engagement", engagement as real, to, "count")
    ensures r[3] == MetricPoint("meta.organic.engagement_rate", rate, to, "percentage")
    ensures ads.Some? ==> r[4] == MetricPoint("meta.ads.spend", ads.value.spend, to, "currency")
    ensures ads.Some? ==> r[5] == MetricPoint("meta.ads.impressions", ads.value.impressions as real, to, "count")
    ensures ads.Some? ==> r[6] == MetricPoint("meta.ads.clicks", ads.value.clicks as real, to, "count")
    ensures ads.Some? ==> r[7] == MetricPoint("meta.ads.conversions", ads.value.conversions as real, to, "count")
    ensures |r| == 9 ==> r[8] == MetricPoint("meta.ads.roas", ads.value.roas.value, to, "ratio")
  {
    var organic := [
      MetricPoint("meta.organic.posts", posts as real, to, "count"),
      MetricPoint("meta.organic.reach", reach as real, to, "count"),
      MetricPoint("meta.organic.engagement", engagement as real, to, "count"),
      MetricPoint("meta.organic.engagement_rate", rate, to, "percentage")];
    if ads.None? then organic
    else
      var a := ads.value;
      var paid := [
        MetricPoint("meta.ads.spend", a.spend, to, "currency"),
        MetricPoint("meta.ads.impressions", a.impressions as real, to, "count"),
        MetricPoint("meta.ads.clicks", a.clicks as real, to, "count"),
        MetricPoint("meta.ads.conversions", a.conversions as real, to, "count")];
      if a.roas.None? then organic + paid
      else organic + paid + [MetricPoint("meta.ads.roas", a.roas.value, to, "ratio")]
  }

  // ---------------------------------------------------------------- the route

  datatype Summary = Summary(
    totalPosts: nat, totalReach: int, totalEngagement: int, avgEngagementRate: real, analyzedPosts: nat,
    ads: Option<AdMetrics>)

  datatype MetricsReply =
    | ErrorReply(status: nat, error: string, details: Option<string>)
    | MetricsReport(from: string, to: string, summary: Summary, points: seq<MetricPoint>)

  /** The Graph API replies: the page ids, a page's Instagram account id
      (`None` when it has none), an account's media, a media item's insights
      reply items (`None` when the request failed), and the ad lookups.
      `Err` is a thrown error. */
  datatype GraphApi = GraphApi(
    pages: Result<seq<string>, string>,
    igAccount: string -> Result<Option<string>, string>,
    media: string -> Result<seq<InstagramMedia>, string>,
    insights: string -> Option<seq<InsightItem>>,
    ads: AdsReply)

  /** A reply naming only requested metrics, for every media item. */
  ghost predicate AnswersOnlyRequested(insights: string -> Option<seq<InsightItem>>) {
    forall id, k :: insights(id).Some? && 0 <= k < |insights(id).value| ==> insights(id).value[k].name in RequestedMetrics
  }

  /** The total above, for an API answering only what was asked. */
  lemma AnsweredEngagementIsZero(media: seq<InstagramMedia>, insights: string -> Option<seq<InsightItem>>)
    ensures AnswersOnlyRequested(insights) ==> TotalOf(media, insights, AsWrittenEngagementKey) == 0
  {
    if AnswersOnlyRequested(insights) {
      AsWrittenTotalEngagementIsZero(media, insights);
    }
  }

  /** The summary of a period's media, reading engagement from
      `engagementKey`. */
  function Summarize(inPeriod: seq<InstagramMedia>, api: GraphApi, engagementKey: string): (s: Summary)
    ensures s.totalPosts == |inPeriod| && s.analyzedPosts == 0
    ensures s.totalReach == TotalOf(inPeriod, api.insights, ReachKey)
    ensures s.totalEngagement == TotalOf(inPeriod, api.insights, engagementKey)
    ensures s.avgEngagementRate == EngagementRate(s.totalReach, s.totalEngagement)
    ensures s.ads == AdMetricsOf(api.ads)
  {
    var reach := TotalOf(inPeriod, api.insights, ReachKey);
    var engagement := TotalOf(inPeriod, api.insights, engagementKey);
    Summary(|inPeriod|, reach, engagement, EngagementRate(reach, engagement), 0, AdMetricsOf(api.ads))
  }

  /** How far the account lookups get: a call threw (with its message), there
      is no page, the first page has no Instagram account, or the account's media. */
  datatype Lookup = Threw(message: string) | NoPages | NoAccount | Found(media: seq<InstagramMedia>)

  /** The page, account and media calls of the route; `Threw` is every case
      the other three leave. */
  function LookupMedia(api: GraphApi): (l: Lookup)
    ensures l.NoPages? <==> api.pages == Ok([])
    ensures l.NoAccount? <==>
      api.pages.Ok? && api.pages.value != [] && api.igAccount(api.pages.value[0]).Ok? &&
      !Truthy(api.igAccount(api.pages.value[0]).value)
    ensures l.Found? <==>
      api.pages.Ok? && api.pages.value != [] && api.igAccount(api.pages.value[0]).Ok? &&
      Truthy(api.igAccount(api.pages.value[0]).value) && api.media(api.igAccount(api.pages.value[0]).value.value).Ok?
    ensures l.Found? ==> l.media == api.media(api.igAccount(api.pages.value[0]).value.value).value
    ensures api.pages.Err? ==> l == Threw(api.pages.error)
    ensures api.pages.Ok? && api.pages.value != [] && api.igAccount(api.pages.value[0]).Err? ==>
      l == Threw(api.igAccount(api.pages.value[0]).error)
    ensures (api.pages.Ok? && api.pages.value != [] && api.igAccount(api.pages.value[0]).Ok? &&
             Truthy(api.igAccount(api.pages.value[0]).value) &&
             api.media(api.igAccount(api.pages.value[0]).value.value).Err?) ==>
      l == Threw(api.media(api.igAccount(api.pages.value[0]).value.value).error)
  {
    match api.pages
    case Err(m) => Threw(m)
    case Ok(pages) =>
      if pages == [] then NoPages
      else match api.igAccount(pages[0])
        case Err(m) => Threw(m)
        case Ok(account) =>
          if !Truthy(account) then NoAccount
          else match api.media(account.value)
            case Err(m) => Threw(m)
            case Ok(all) => Found(all)
  }

  /** The metrics route, reading each post's engagement from
      `engagementKey`. */
  function MetricsRoute(
    token: Option<string>, fromParam: Option<string>, toParam: Option<string>, defaultFrom: string, defaultTo: string,
    api: GraphApi, parseDate: string -> Instant, engagementKey: string): (r: MetricsReply)
    ensures !Truthy(token) ==> r == ErrorReply(401, NotAuthenticatedError, None)
    ensures Truthy(token) ==> (r.ErrorReply? && r.status == 500 <==> LookupMedia(api).Threw?)
    ensures Truthy(token) && LookupMedia(api).Threw? ==>
      r == ErrorReply(500, FetchFailedError, Some(LookupMedia(api).message))
    ensures Truthy(token) ==> (r == ErrorReply(404, NoAccountError, None) <==> LookupMedia(api).NoAccount?)
    ensures Truthy(token) ==> (r.MetricsReport? <==> LookupMedia(api).NoPages? || LookupMedia(api).Found?)
    ensures r.ErrorReply? ==> r.status in {401, 404, 500}
    ensures r.MetricsReport? ==> r.from == OrElse(fromParam, defaultFrom) && r.to == OrElse(toParam, defaultTo)
    ensures Truthy(token) && LookupMedia(api).NoPages? ==>
      r.MetricsReport? && r.summary == Summary(0, 0, 0, 0.0, 0, None) && r.points == []
    ensures Truthy(token) && LookupMedia(api).Found? ==>
      var inPeriod := MediaInPeriod(LookupMedia(api).media, parseDate(r.from), parseDate(r.to), parseDate);
      r.MetricsReport? && r.summary == Summarize(inPeriod, api, engagementKey)
    ensures Truthy(token) && LookupMedia(api).Found? ==>
      var s := r.summary;
      r.points == MetricPoints(r.to, s.totalPosts, s.totalReach, s.totalEngagement, s.avgEngagementRate, s.ads)
    ensures Truthy(token) && LookupMedia(api).Found? && !api.ads.Campaigns? ==>
      r.summary.ads.None? && |r.points| == 4
  {
    if !Truthy(token) then ErrorReply(401, NotAuthenticatedError, None)
    else
      var from := OrElse(fromParam, defaultFrom);
      var to := OrElse(toParam, defaultTo);
      match LookupMedia(api)
      case Threw(m) => ErrorReply(500, FetchFailedError, Some(m))
      case NoPages => MetricsReport(from, to, Summary(0, 0, 0, 0.0, 0, None), [])
      case NoAccount => ErrorReply(404, NoAccountError, None)
      case Found(all) =>
        var inPeriod := MediaInPeriod(all, parseDate(from), parseDate(to), parseDate);
        var s := Summarize(inPeriod, api, engagementKey);
        MetricsReport(from, to, s,
          MetricPoints(to, s.totalPosts, s.totalReach, s.totalEngagement, s.avgEngagementRate, s.ads))
  }

  /** `GET` of the metrics route as written, totalling `engagement`: when the
      API answers only what was asked, every report shows no engagement. */
  function MetricsGet(
    token: Option<string>, fromParam: Option<string>, toParam: Option<string>, defaultFrom: string, defaultTo: string,
    api: GraphApi, parseDate: string -> Instant): (r: MetricsReply)
    ensures AnswersOnlyRequested(api.insights) && r.MetricsReport? ==>
      r.summary.totalEngagement == 0 && r.summary.avgEngagementRate == 0.0
    ensures Truthy(token) && LookupMedia(api).Found? ==>
      var inPeriod := MediaInPeriod(LookupMedia(api).media, parseDate(OrElse(fromParam, defaultFrom)),
        parseDate(OrElse(toParam, defaultTo)), parseDate);
      r.MetricsReport? && r.summary.totalEngagement == TotalOf(inPeriod, api.insights, AsWrittenEngagementKey)
  {
    var r := MetricsRoute(token, fromParam, toParam, defaultFrom, defaultTo, api, parseDate, AsWrittenEngagementKey);
    if Truthy(token) && LookupMedia(api).Found? then
      var inPeriod := MediaInPeriod(LookupMedia(api).media, parseDate(OrElse(fromParam, defaultFrom)),
        parseDate(OrElse(toParam, defaultTo)), parseDate);
      AnsweredEngagementIsZero(inPeriod, api.insights);
      NoEngagementNoRate(TotalOf(inPeriod, api.insights, ReachKey));
      r
    else r
  }

  /** `GET` of the metrics route totalling the requested `total_interactions`. */
  function FixedMetricsGet(
    token: Option<string>, fromParam: Option<string>, toParam: Option<string>, defaultFrom: string, defaultTo: string,
    api: GraphApi, parseDate: string -> Instant): (r: MetricsReply)
    ensures Truthy(token) && LookupMedia(api).Found? ==>
      var inPeriod := MediaInPeriod(LookupMedia(api).media, parseDate(OrElse(fromParam, defaultFrom)),
        parseDate(OrElse(toParam, defaultTo)), parseDate);
      r.MetricsReport? && r.summary.totalEngagement == TotalOf(inPeriod, api.insights, EngagementKey) &&
      |r.points| >= 4 && r.points[2] == MetricPoint("meta.organic.engagement", r.summary.totalEngagement as real, r.to, "count")
  {
    MetricsRoute(token, fromParam, toParam, defaultFrom, defaultTo, api, parseDate, EngagementKey)
  }

  // ---------------------------------------------------------------- route properties

  /** The engagement key changes only the engagement figures: both routes
      fail alike, and their reports share the period, post count, reach and
      ad totals. */
  lemma FixOnlyChangesEngagement(
    token: Option<string>, fromParam: Option<string>, toParam: Option<string>, defaultFrom: string, defaultTo: string,
    api: GraphApi, parseDate: string -> Instant)
    ensures var a := MetricsGet(token, fromParam, toParam, defaultFrom, defaultTo, api, parseDate);
      var f := FixedMetricsGet(token, fromParam, toParam, defaultFrom, defaultTo, api, parseDate);
      (a.ErrorReply? ==> f == a) && (a.MetricsReport? <==> f.MetricsReport?)
    ensures var a := MetricsGet(token, fromParam, toParam, defaultFrom, defaultTo, api, parseDate);
      var f := FixedMetricsGet(token, fromParam, toParam, defaultFrom, defaultTo, api, parseDate);
      a.MetricsReport? ==>
        f.from == a.from && f.to == a.to && f.summary.totalPosts == a.summary.totalPosts &&
        f.summary.totalReach == a.summary.totalReach && f.summary.ads == a.summary.ads
  {
  }

  /** A failure fetching ads does not fail the route: the reply is the one
      with ads, less the ad totals and the ad points. */
  lemma AdsFailureOnlyDropsAds(
    token: Option<string>, fromParam: Option<string>, toParam: Option<string>, defaultFrom: string, defaultTo: string,
    api: GraphApi, parseDate: string -> Instant, engagementKey: string)
    ensures var with := MetricsRoute(token, fromParam, toParam, defaultFrom, defaultTo, api, parseDate, engagementKey);
      var without := MetricsRoute(token, fromParam, toParam, defaultFrom, defaultTo, api.(ads := AdsFailed), parseDate,
        engagementKey);
      (with.ErrorReply? ==> without == with) && (with.MetricsReport? <==> without.MetricsReport?)
    ensures var with := MetricsRoute(token, fromParam, toParam, defaultFrom, defaultTo, api, parseDate, engagementKey);
      var without := MetricsRoute(token, fromParam, toParam, defaultFrom, defaultTo, api.(ads := AdsFailed), parseDate,
        engagementKey);
      with.MetricsReport? ==>
        without.summary == with.summary.(ads := None) &&
        |without.points| <= |with.points| && without.points == with.points[..|without.points|]
  {
    var failed := api.(ads := AdsFailed);
    assert LookupMedia(failed) == LookupMedia(api);
    var with := MetricsRoute(token, fromParam, toParam, defaultFrom, defaultTo, api, parseDate, engagementKey);
    var without := MetricsRoute(token, fromParam, toParam, defaultFrom, defaultTo, failed, parseDate, engagementKey);
    if Truthy(token) && LookupMedia(api).Found? {
      assert |without.points| == 4;
      assert forall k :: 0 <= k < 4 ==> without.points[k] == with.points[k];
      assert without.points == with.points[..4];
    }
  }
}
