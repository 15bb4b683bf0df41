# MetaCoach decision procedures in Dafny

MetaCoach connects an Instagram Business account through Meta's Graph API. It
downloads the account's media, has a vision model score hooks, thumbnails and
content quality, and serves metrics and health status to a dashboard and to
the Everreach proxy. Most of the repository is HTTP plumbing, model calls and
React UI. This project models the pure decisions inside it:

- **Score and list parsing** of the model's free-text replies (`ScoreParsing`).
  Each regular expression is written as a hand-made scanner: labelled numbers
  with the default 50, the `Math.round` mean, and the keyword list extractor
  with its five-item cap and line-scan fallback.
- **The analysis pipeline** `analyzeContent` and its four analysers
  (`Analysis`). It covers which result fields each media type fills, the
  frames the hook and the content analyser see, and how errors propagate.
- **Frame extraction** (`VideoFrames`, `Sorting`). It covers frame-file
  selection, the choice of ffmpeg command, the 30-second duration fallback,
  and the temporary-directory discipline of every `finally` block. Live
  directories are an abstract set.
- **Media predicates and the chunked batch download** (`InstagramMediaOps`,
  `Media`).
- **The authentication checks**:
  - the Business Login fragment parser and login parameters (`BusinessLogin`);
  - the callback page's CSRF state selection with its ten-minute expiry (`CallbackPage`);
  - the store-token and OAuth-callback guards and cookie writes (`TokenRoutes`);
  - the data-deletion signed-request check with its base64url conversion (`DataDeletion`).
- **The health classification** (`Health`), **the metrics aggregation**
  (`Metrics`) and **the Everreach TTL proxy cache** (`ProxyCache`).

`Wrappers` holds `Option` and `Result`. `Text` holds the JavaScript string
semantics the code relies on: truthiness, `||` fallbacks, `\s`, `trim`,
`split`/`join`, `parseInt` and integer printing.

Everything outside the program is a parameter:

- the chat and transcription services, ffmpeg/ffprobe and the file system;
- HTTP fetches and Graph API replies;
- HMAC and base64 of a digest;
- date parsing, ISO formatting of a time value, and the clock.

So every contract holds for every answer those services could give.

## Model

| member | source | states |
|---|---|---|
| ScoreParsing.LabelledScoreIsFirstCapture | lib/ai-analysis.ts:215-216 | a labelled score is the number captured by the leftmost match of `label[:\s]+(\d+)` (case-insensitive), or 50 when the label never matches; it is not clamped |
| ScoreParsing.FirstMatchFrom | lib/ai-analysis.ts:287-290 | the scan finds the leftmost position where the label pattern matches, and no earlier position matches |
| ScoreParsing.RoundedMean | lib/ai-analysis.ts:384 | the rounded mean `r` of three scores satisfies `6r <= 2(a+b+c)+3 < 6r+6`, i.e. it is the nearest integer with halves rounded up |
| ScoreParsing.RoundedMeanIsMathRound | lib/ai-analysis.ts:295 | the rounded mean meets the real-number definition of `Math.round` of `(a+b+c)/3` |
| ScoreParsing.RoundedMeanBetween | lib/ai-analysis.ts:459 | the overall score lies between the smallest and largest of its three parts, and equals them when they agree |
| ScoreParsing.ExtractListItems | lib/ai-analysis.ts:475-500 | at most five items in document order; they are the bulleted captures when there is one, otherwise the fallback line scan; every item is non-empty, trimmed and contains the keyword case-insensitively |
| ScoreParsing.BulletedItemsGood | lib/ai-analysis.ts:479-484 | every capture of the bulleted pattern, once trimmed, is non-empty and mentions the keyword |
| ScoreParsing.FallbackItemsGood | lib/ai-analysis.ts:487-497 | every line the fallback keeps, with its leading markers stripped and trimmed, is non-empty and still mentions the keyword |
| ScoreParsing.CleanLineKeepsKeyword | lib/ai-analysis.ts:490-491 | stripping the leading `-*•`, digits, `.`, `)` and spaces never removes the keyword a line contains |
| Analysis.GenerateTranscript | lib/ai-analysis.ts:119-155 | succeeds exactly when transcription succeeds; the text is the reply's; the language is the reply's when it is non-empty and `en` otherwise; failures carry the fixed prefix |
| Analysis.HookRequest | lib/ai-analysis.ts:173-209 | the hook request quotes the transcript's first 200 characters (all of it when shorter) and carries at most three images, the first frames in order |
| Analysis.AnalyzeHook | lib/ai-analysis.ts:160-231 | a chat failure propagates unchanged; on a reply, every received frame comes back base64-encoded, in order, as `keyFrames` |
| Analysis.AnalyzeThumbnail | lib/ai-analysis.ts:236-308 | fails exactly when the chat call fails, with its error; otherwise the numbers are read from the reply text (`null` content reads as empty) |
| Analysis.ThumbnailScoreRule | lib/ai-analysis.ts:287-295 | the thumbnail score is the explicit `score` number when one matches, otherwise the rounded mean of clarity, composition and attention |
| Analysis.SampleFrames | lib/ai-analysis.ts:326-331 | content sampling yields exactly three frames, at indices 0, ⌊n/2⌋ and n-1, and only when there is at least one frame |
| Analysis.VideoContentRequest | lib/ai-analysis.ts:326-372 | the content request carries the encoded first, middle and last frames, the frame count, the caption and the transcript's first 500 characters (all of it when shorter) |
| Analysis.AnalyzeVideoContent | lib/ai-analysis.ts:313-395 | an empty frame list fails with the TypeError of reading `frames[0]`; otherwise chat failures propagate and the result is read from the reply |
| Analysis.AnalyzeImageContent | lib/ai-analysis.ts:400-470 | fails exactly when the chat call fails; otherwise the three scores and their rounded mean are read from the reply |
| Analysis.UnlabelledReplyScoresFifty | lib/ai-analysis.ts:381-384 | when no label occurs, visual appeal, engagement, relevance and the overall score are all 50 |
| Analysis.AnalyzeVideo | lib/ai-analysis.ts:67-85 | stages run in order (transcript, ten frames, hook on the first five, content quality on all) and the first failing stage's error is the result; when all succeed the result is the base with exactly those stage values; the frame extraction's directory state is kept, stays valid, and with a working cleanup nothing is left behind |
| Analysis.AnalyzeImage | lib/ai-analysis.ts:87-95 | succeeds exactly when the thumbnail and the content-quality analyses both succeed; a thumbnail failure is reported before a content failure; the result is the base with exactly those two values |
| Analysis.AnalyzeContent | lib/ai-analysis.ts:53-114 | the fields present depend only on the media type (video: transcript, hook, quality; image: thumbnail, quality; carousel: thumbnail); a video goes through the video branch, an image through the image branch, and a carousel fails exactly when its thumbnail analysis fails, with that error; id and type are copied, and the timestamp falls back to now; only a video touches temporary directories, and it leaves the live set as it found it |
| Analysis.AnalysisSucceedsExactly | lib/ai-analysis.ts:53-114 | an analysis yields a result exactly when every external call its media type needs answers: transcription, a non-empty frame extraction, hook and content requests for a video; thumbnail and content requests for an image; the thumbnail request for a carousel |
| Analysis.TranscriptFailureStopsVideo | lib/ai-analysis.ts:67-76 | a failed transcription ends a video analysis with the prefixed error before any directory is created |
| Analysis.NoFramesNoResult | lib/ai-analysis.ts:76-85 | a video that yields no frames gets no result, whatever the hook call answers |
| Analysis.HookSeesFirstFive | lib/ai-analysis.ts:79-81 | the hook receives at most five frames, sends at most three, and returns exactly the ones it received |
| Analysis.StillMediaIgnoreTooling | lib/ai-analysis.ts:87-103 | image and carousel analyses do not depend on the frame tooling |
| VideoFrames.InTempDir | lib/video-utils.ts:33-82 | a `mkdtemp` failure is thrown as is; work errors are rethrown behind the operation's prefix; the directory created is removed on every exit unless the removal itself fails, which is swallowed |
| VideoFrames.FrameFiles | lib/video-utils.ts:61 | the kept names are exactly the `frame-*.jpg` names of the listing, with their multiplicities |
| VideoFrames.SelectFrameFiles | lib/video-utils.ts:60-65 | the selected files are sorted frame files of the listing, none picked more often than the listing holds it, `min(count, available)` of them for a non-negative count, and each one sorts before every frame file left out |
| VideoFrames.SliceEnd | lib/video-utils.ts:65 | `slice(0, end)` keeps `min(end, len)` elements for a non-negative end, and never more than the list holds |
| VideoFrames.ReadAll | lib/video-utils.ts:64-69 | succeeds exactly when every read succeeds, returning the buffers in order; otherwise it fails with the error of the first failing read |
| VideoFrames.ReadFrameFiles | lib/video-utils.ts:64-71 | the read loop computes the same outcome as reading every selected file in order |
| VideoFrames.ChooseCommand | lib/video-utils.ts:27-54 | a truthy interval (present and non-zero, fractional or negative ones included) selects the fixed cadence, otherwise count frames are spread over the duration; count defaults to 10 and quality to 2 |
| VideoFrames.ExtractVideoFrames | lib/video-utils.ts:19-83 | the ffmpeg check comes first and its failure creates no directory; success exactly when the directory is made, the video written, the chosen ffmpeg command runs, the directory lists and every selected file reads; the frames are the contents of the selected files, at most `count`; a failed directory creation is passed on bare, and a failed write, command, listing or first unreadable file gives its own error behind the fixed prefix; the live directory set is restored |
| VideoFrames.ExtractSingleFrame | lib/video-utils.ts:88-118 | succeeds exactly when ffmpeg is installed, the directory and input file are created, the command at the timestamp runs and `frame.jpg` reads, and returns that file; errors name the timestamp; the same cleanup |
| VideoFrames.ExtractThumbnail | lib/video-utils.ts:200-202 | the thumbnail is the frame at second 0: it succeeds exactly when the frame-0 command runs and `frame.jpg` reads, and is that file's content; a missing ffmpeg fails before any directory; errors carry the `0s` prefix |
| VideoFrames.ThumbnailNeedsOnlyFrameZero | lib/video-utils.ts:200-202 | the thumbnail depends on no duration probe, no directory listing and no other ffmpeg command |
| VideoFrames.VideoDuration | lib/video-utils.ts:123-132 | the probed duration when ffprobe answers, 30 seconds when it throws |
| VideoFrames.ExtractHookFrames | lib/video-utils.ts:207-212 | the hook extraction is frame extraction with count 5 and quality 2, so it yields at most five frames |
| VideoFrames.GetVideoMetadata | lib/video-utils.ts:138-179 | success exactly when the directory is made, the video written and ffprobe's report read; duration, width and height are the reported values or 0, the frame rate the reported non-zero rate or 30, the codec the reported non-empty name or `unknown`; a failed write or probe gives its error behind the metadata prefix; the same cleanup |
| VideoFrames.CleanupFailureInvisible | lib/video-utils.ts:75-82 | whether the final `fs.rm` succeeds never changes the frames or error returned |
| VideoFrames.ProbeFailureAssumesThirtySeconds | lib/video-utils.ts:123-132 | when ffprobe fails and no interval is given, count frames are spread over 30 seconds |
| Sorting.Sort | lib/video-utils.ts:61 | `sort()` yields a lexicographically sorted permutation of the frame names |
| Sorting.SortedUnique | lib/video-utils.ts:61 | a sorted permutation is unique, so the selection does not depend on how the sort is carried out |
| InstagramMediaOps.GetMediaDownloadUrl | lib/instagram-media.ts:53-65 | the media URL for every media type, and null exactly when the media is not downloadable |
| InstagramMediaOps.GetThumbnailUrl | lib/instagram-media.ts:70-75 | a video's own thumbnail when it has a non-empty one, otherwise the download URL (or null) |
| InstagramMediaOps.EstimateMediaSize | lib/instagram-media.ts:135-147 | always an estimate; 15000 KB exactly for videos, 500 for images, 2000 for carousels |
| InstagramMediaOps.ShouldDownloadMedia | lib/instagram-media.ts:152-187 | true exactly when the media is downloadable, of the requested type, and (when it has a timestamp) not before the minimum nor after the maximum |
| InstagramMediaOps.BothTypeFiltersSelectNothing | lib/instagram-media.ts:167-172 | asking for only videos and only images selects nothing |
| InstagramMediaOps.BoundsAreInclusive | lib/instagram-media.ts:178-183 | an item passes the time test exactly when `min <= t <= max` |
| InstagramMediaOps.UndatedMediaPassTimeTest | lib/instagram-media.ts:175-186 | an item without a timestamp, or with an unparseable one, is never excluded by the bounds |
| InstagramMediaOps.DownloadMedia | lib/instagram-media.ts:8-19 | succeeds with the fetched body exactly when the fetch succeeds; errors carry the fixed prefix |
| InstagramMediaOps.DownloadMediaWithMetadata | lib/instagram-media.ts:24-41 | without a media URL it fails with the fixed error and fetches nothing; otherwise it returns the fetched buffer and the media unchanged as metadata |
| InstagramMediaOps.DownloadTask | lib/instagram-media.ts:92-111 | each item keeps its media; it has a buffer exactly when it has no error; non-downloadable media get the fixed error, and a failed download gets the prefixed error instead of aborting |
| InstagramMediaOps.Chunks | lib/instagram-media.ts:88-89 | chunks are non-empty, at most `concurrency` long, and all but the last are full |
| InstagramMediaOps.FlattenChunks | lib/instagram-media.ts:88-126 | concatenating the chunks gives back the input, so chunking neither drops, repeats nor reorders items |
| InstagramMediaOps.DownloadMediaBatch | lib/instagram-media.ts:81-129 | one result per input, in input order, `results[i].media == items[i]`; each result is that item's own task outcome; the loop settles the chunks of `Chunks(items, concurrency)` in order |
| InstagramMediaOps.BatchStep | lib/instagram-media.ts:88-89 | one round of the loop, taking the next `concurrency` items, settles exactly the next chunk |
| BusinessLogin.GetParam | lib/meta-business-login.ts:52-56 | `get(name)` is null exactly when no parameter has that name, and otherwise a value that parameter carries |
| BusinessLogin.ParseSerialize | lib/meta-business-login.ts:50 | parsing the `&`/`=` serialization of plain parameters gives them back |
| BusinessLogin.LoginParams | lib/meta-business-login.ts:4-35 | the login URL asks for a token response, carries the given state and app id, and redirects to the callback path under the public base URL |
| BusinessLogin.ParseBusinessLoginTokens | lib/meta-business-login.ts:41-75 | tokens exactly when the access token, the long-lived token and `expires_in` are present and non-empty; `expires_in` through `parseInt`; the data-access expiry defaults to 0; the state is passed on or null |
| BusinessLogin.TokenFragmentRoundTrip | lib/meta-business-login.ts:50-70 | the fragment Facebook sends for given tokens parses back to those tokens, with a numeric expiry, data-access expiry 0 and the state |
| BusinessLogin.IsBusinessLoginCanceled | lib/meta-business-login.ts:78-80 | cancelled exactly when `error=access_denied` occurs anywhere in the fragment |
| CallbackPage.StoredState | app/connect/business-callback/page.tsx:40-57 | the session state when it is non-empty; otherwise the local state, or none when the local timestamp reads as a number more than ten minutes old |
| CallbackPage.ClearState | app/connect/business-callback/page.tsx:76-78 | exactly the state key leaves session storage and the state and timestamp keys leave local storage; every other entry is kept |
| CallbackPage.VerifyCallback | app/connect/business-callback/page.tsx:16-78 | an empty fragment and an unparseable one get their own messages; the callback passes exactly when the fragment's state equals the non-empty stored state; a passing callback clears the state |
| CallbackPage.RouteReply | app/connect/business-callback/page.tsx:91-94 | the page sees `ok` for the route's 200 and not for its 400 and 500, with the route's error message |
| CallbackPage.Outcome | app/connect/business-callback/page.tsx:91-104 | success exactly for an `ok` reply; a failed reply reports its `error` or `Failed to store token`; a thrown error reports its message |
| CallbackPage.HandleCallback | app/connect/business-callback/page.tsx:13-106 | a refused callback reports its message and touches no storage; an accepted one clears the state, posts the body as written (tokens and lifetime, no state) and ends with the store request's outcome |
| CallbackPage.FixedHandleCallback | app/connect/business-callback/page.tsx:13-106 | the same page posting the corrected body, which carries the verified state |
| CallbackPage.SessionStateNeverAges | app/connect/business-callback/page.tsx:40-46 | a non-empty session state is used however old the local timestamp is |
| CallbackPage.NoTimestampNoAgeCheck | app/connect/business-callback/page.tsx:48-56 | without a timestamp the local state is used as is |
| CallbackPage.StaleLocalStateRefused | app/connect/business-callback/page.tsx:47-71 | a local state saved more than ten minutes ago is refused even when the fragment carries it |
| CallbackPage.StorageTouchedOnlyOnSuccess | app/connect/business-callback/page.tsx:62-78 | a refused callback leaves both storages unchanged; an accepted one removes exactly the three state keys |
| CallbackPage.PageBody | app/connect/business-callback/page.tsx:84-88 | the body as written carries the long-lived token and lifetime but no state |
| CallbackPage.PageBodyAlwaysRejected | app/connect/business-callback/page.tsx:84-88 | the store-token route answers `Invalid state parameter` to the body as written, whatever cookie the browser sends |
| CallbackPage.VerifiedCallbackFailsAsWritten | app/connect/business-callback/page.tsx:81-94 | every callback that passes the page's own CSRF test, posted to the store-token route, still ends failed with `Invalid state parameter` |
| CallbackPage.FixedPageBody | app/connect/business-callback/page.tsx:84-88 | the corrected body also carries the verified state |
| CallbackPage.FixedCallbackStored | app/connect/business-callback/page.tsx:81-96 | with the corrected body, a verified callback ends in success when the `oauth_state` cookie holds the same state, a cookie the Business Login start as written does not set |
| TokenRoutes.ExpirySeconds | app/api/meta/business-login/store-token/route.ts:26 | an absent, NaN or zero lifetime means sixty days (5184000 s); any other lifetime is used as is |
| TokenRoutes.ExpiryInstant | app/api/meta/business-login/store-token/route.ts:25-26 | the expiry lies `1000·seconds` ms after the time the route read |
| TokenRoutes.TokenCookies | app/api/meta/business-login/store-token/route.ts:31-46 | the token and expiry cookies both live as long as the token, and the state cookie is deleted |
| TokenRoutes.StoreToken | app/api/meta/business-login/store-token/route.ts:4-56 | 200 exactly when the body parses, has a long-lived token and a state equal to the non-empty cookie state; the token check first, then the state check; an unparseable body or a failing expiry conversion gives 500 `Failed to store token`; only 200, 400 and 500 |
| TokenRoutes.TokenCheckPrecedesStateCheck | app/api/meta/business-login/store-token/route.ts:8-22 | a body without a long-lived token gets the same answer whatever states are involved |
| TokenRoutes.StatelessStoreRejected | app/api/meta/business-login/store-token/route.ts:16-22 | a body without a state, or a browser without a state cookie, is always rejected |
| TokenRoutes.OAuthCallback | app/api/meta/oauth/callback/route.ts:4-65 | invalid state first, then missing code; past those checks every failure, a thrown exchange or a failing expiry conversion, redirects to `callback_failed`; the dashboard redirect exactly when all pass, with the token cookies; no cookie on any other redirect |
| TokenRoutes.StateCheckPrecedesCodeCheck | app/api/meta/oauth/callback/route.ts:12-22 | with a bad state the code and the exchanges are never consulted |
| TokenRoutes.RoutesAgreeOnCookies | app/api/meta/oauth/callback/route.ts:34-56 | the OAuth callback and the store-token route write the same cookies for the same token, lifetime and clock |
| DataDeletion.ToBase64Url | app/api/facebook/data-deletion/route.ts:26-28 | the converted signature has no `+`, `/` or `=`, and is as long as the digest without its padding |
| DataDeletion.FromBase64Url | app/api/facebook/data-deletion/route.ts:23-28 | the inverse conversion always yields a whole number of base64 quanta |
| DataDeletion.Base64UrlRoundTrip | app/api/facebook/data-deletion/route.ts:23-28 | converting a well-formed base64 digest and back returns it, the padding being recomputed from the length |
| DataDeletion.ToBase64UrlAddsOnlyUrlChars | app/api/facebook/data-deletion/route.ts:26-27 | the conversion introduces no character except `-` and `_` |
| DataDeletion.DeletionPost | app/api/facebook/data-deletion/route.ts:7-64 | a body that is not JSON gives 500, a missing request 400, a request without `.` 500; the signature error appears exactly when the first segment differs from the expected signature of the second; a correctly signed request is confirmed exactly when its payload decodes, and an undecodable payload gives 500; a confirmation carries the user id as code and in the status URL |
| DataDeletion.LaterSegmentsIgnored | app/api/facebook/data-deletion/route.ts:20 | anything after a second `.` is ignored |
| DataDeletion.SignedRequestConfirmed | app/api/facebook/data-deletion/route.ts:20-56 | a request signed with the expected signature over a payload naming a user is confirmed for that user |
| Health.RateLimitOf | app/api/meta/health/route.ts:58-74 | a rate limit exactly when a non-empty usage header parses; 600 total calls, the used calls being `call_count` or 0, and used plus remaining is always 600; CPU time and total time are the reported values or 0 |
| Health.Classify | app/api/meta/health/route.ts:76-88 | never DOWN; UP exactly when at least 100 calls remain (or nothing is known) and latency is at most 2000 ms; the latency message wins over the rate-limit message |
| Health.CheckHealth | app/api/meta/health/route.ts:28-124 | DOWN exactly when there is no token or the ping fails; 503 only for a failed ping; `last_success` is set exactly when not DOWN; the latency is the measured interval |
| Health.LatencyMessageOverrides | app/api/meta/health/route.ts:80-88 | a slow service low on calls is reported for its latency |
| Health.DegradedAboveFiveHundredCalls | app/api/meta/health/route.ts:65-83 | for a fast ping, a header reporting `n` used calls degrades the service exactly when `n > 500` |
| Health.NoHeaderOnlyLatencyCounts | app/api/meta/health/route.ts:61-88 | without a usage header only latency can degrade the service |
| Metrics.InPeriodInclusive | app/api/meta/metrics/route.ts:100-103 | both ends of the period are included, and an invalid date on either side excludes everything |
| Metrics.MediaInPeriod | app/api/meta/metrics/route.ts:96-103 | an item is kept exactly when its date is within the period, as many times as it occurs in the media list |
| Metrics.OutOfPeriodMediaIgnored | app/api/meta/metrics/route.ts:100-103 | media outside the period change nothing |
| Metrics.FoldInsights | lib/meta.ts:84-87 | the folded insights have a key exactly for each metric name the reply mentions |
| Metrics.LastItemWins | lib/meta.ts:84-87 | the last item naming a metric sets its value, missing values reading 0 |
| Metrics.OtherNamesUnchanged | lib/meta.ts:84-87 | an item leaves the value of every other metric name as the earlier items set it |
| Metrics.LastOccurrenceWins | lib/meta.ts:84-87 | every metric name holds the value of the last item naming it, wherever that item stands in the reply |
| Metrics.AsWrittenEngagementIsZero | app/api/meta/metrics/route.ts:134 | a reply naming only requested metrics never sets `engagement` |
| Metrics.AsWrittenTotalEngagementIsZero | app/api/meta/metrics/route.ts:131-136 | so the route as written totals an engagement of 0 for any media |
| Metrics.EngagementKeyCounterexample | app/api/meta/metrics/route.ts:134 | a post with 15 interactions reads 0 under `engagement` and 15 under `total_interactions` |
| Metrics.EngagementRate | app/api/meta/metrics/route.ts:138-140 | 0 without reach; otherwise rate × reach = engagement × 100 |
| Metrics.OtherActionsIgnored | app/api/meta/metrics/route.ts:170-176 | actions other than the two purchase types add no conversions |
| Metrics.CampaignWithoutInsightsIgnored | app/api/meta/metrics/route.ts:164-165 | a campaign without insights adds nothing |
| Metrics.AdMetricsOf | app/api/meta/metrics/route.ts:151-190 | ad totals exactly when an ad account exists and the lookups succeed; spend, impressions, clicks and conversions are the sums over the campaigns; ROAS exactly when spend is positive, with ROAS × spend = conversions |
| Metrics.MetricPoints | app/api/meta/metrics/route.ts:193-257 | 4 organic points, 8 with ad totals, 9 with ROAS; all stamped with the period end; every point has its name, value and unit |
| Metrics.Summarize | app/api/meta/metrics/route.ts:106-140 | the summary counts the period's posts, sums reach and the given engagement key over them, and takes the guarded rate |
| Metrics.LookupMedia | app/api/meta/metrics/route.ts:67-96 | no pages, a first page without an Instagram account, and the account's media are each told apart exactly by the API replies; every other case is a thrown call, carrying the message of the first call that threw |
| Metrics.MetricsRoute | app/api/meta/metrics/route.ts:47-280 | 401 without a token; with one, 500 exactly when a page, account or media call threw, with the thrown message as `details`, 404 exactly when the first page has no Instagram account, and a report exactly otherwise: empty without pages, else the summary of the period's media and its points; a failed ad lookup leaves the ad totals absent and the 4 organic points |
| Metrics.MetricsGet | app/api/meta/metrics/route.ts:131-136 | the route as written totals `engagement`, so when the API answers only the requested metrics every report shows engagement 0 and rate 0 |
| Metrics.FixedMetricsGet | app/api/meta/metrics/route.ts:131-136 | the corrected route totals `total_interactions` over the period's media and reports that sum as the engagement point |
| Metrics.FixOnlyChangesEngagement | app/api/meta/metrics/route.ts:131-136 | the two routes fail alike and their reports agree on the period, post count, reach and ad totals |
| Metrics.AdsFailureOnlyDropsAds | app/api/meta/metrics/route.ts:151-190 | a failed ad lookup does not fail the route: the reply is the one with ads less the ad totals and ad points |
| ProxyCache.CacheKey | everreach-integration/api-proxy.ts:25-27 | the key is the path, followed by `?` and the query only when there is one |
| ProxyCache.AgeSeconds | everreach-integration/api-proxy.ts:35 | the reported age is the floor of the elapsed milliseconds over 1000 |
| ProxyCache.Serve | everreach-integration/api-proxy.ts:29-78 | an entry younger than five minutes is served as a hit with its age; otherwise a good response is served as a miss and stored with its arrival time; a non-OK status is passed on with its status, a thrown error becomes a 500 carrying its message, and neither stores anything |
| ProxyCache.AppPath | everreach-integration/api-proxy.ts:25 | a path starting with `/api/meta/` loses exactly that prefix; a path without it is kept |
| ProxyCache.Get | everreach-integration/api-proxy.ts:22-79 | a request under `/api/meta/` is served under the path below the prefix plus its query; a path without the prefix is keyed as it is |
| ProxyCache.Handler | everreach-integration/api-proxy.ts:82-91 | a method other than GET gets 405 before the cache is consulted; GET uses the joined path segments |
| ProxyCache.HitIgnoresUpstream | everreach-integration/api-proxy.ts:30-38 | a hit does not depend on the upstream reply and does not change the cache |
| ProxyCache.OnlyRequestedKeyChanges | everreach-integration/api-proxy.ts:61-64 | only the requested key can change, only on a good response, and no key is ever removed |
| ProxyCache.FailedRefreshKeepsStaleEntry | everreach-integration/api-proxy.ts:53-59 | an expired entry stays in place when its refresh fails |
| ProxyCache.FillThenHit | everreach-integration/api-proxy.ts:61-64 | a stored response is served from the cache to any request for the same key within five minutes of its arrival |
| ProxyCache.ServeAll | everreach-integration/api-proxy.ts:11-79 | over a series of requests the cache only grows, every new key was requested, unrequested entries are untouched, and a failed fetch is never reported as a miss |

## Left out

- Prompts, model names, token limits and the chat request's text are not modelled. A request is described by the transcript excerpt, the caption and the images it carries.
- `analyzedAt`, `processingTimeMs` and the transcript `duration` are clock readings and are not modelled.
- The bulleted pattern of `extractListItems` is applied line by line. A bare bullet marker whose `\s*` would run across a line break into the next line is not modelled, and only `\n` ends a line.
- Case-insensitive matching folds ASCII letters only. `toLowerCase` of non-ASCII characters such as KELVIN SIGN is not modelled.
- Keywords of `extractListItems` are lower-case letter words, the four the analysers pass. Keywords with regular-expression metacharacters are not modelled.
- The frame rate `count/duration` and `1/interval` are kept as their operands; floating-point division is not modelled.
- `parseFloat` of the probe output is not modelled: the probe yields a real or fails.
- VideoFrames.ExtractSingleFrame: takes the timestamp as whole non-negative seconds. The source's `timestamp: number` also accepts fractional and negative values such as `-ss 1.5`; printing such numbers into the command and the error message is not modelled.
- VideoFrames.ChooseCommand: the interval is any real, but `count` and `quality` are whole numbers. A fractional count, which `slice` truncates, a fractional quality, and a NaN interval, which is falsy, are not modelled.
- The frame rate of `getVideoMetadata` arrives as a real; splitting `r_frame_rate` is not modelled.
- `generatePreviewGif` is not modelled. Nothing in the analysis path calls it.
- `Promise.allSettled` over a chunk is modelled as running the chunk's tasks one after the other. The tasks are independent, so only timing differs.
- InstagramMediaOps.DownloadMediaBatch: requires `concurrency >= 1` unless the list is empty. With 0 the source loops forever on a non-empty list.
- The rejected branch of `downloadMediaBatch` is not modelled: every task catches its own error, so it never rejects.
- `estimateMediaSize` is modelled for the three media types the type declares.
- URL percent-encoding and decoding are not modelled. The login URL is described by its parameter list, and fragments are parsed without `%` escapes.
- Non-string JSON fields are not modelled, e.g. a number in `signed_request` or in the store-token body. They would reach `split` or truthiness tests with another type.
- DataDeletion.DeletionPost: the confirmation URL is stated for `userIdOf`'s printed id. Base64 decoding and JSON parsing of the payload form one oracle.
- The data-deletion `GET` status page is not modelled. It only echoes the query.
- The JSON parsing of the health route's usage header is an oracle. The returned datatype carries the numeric fields, with `|| 0` applied to absent and zero values.
- Metrics.MetricPoints: states the engagement rate and ROAS before `toFixed(2)` rounding. Decimal rounding of floats is not modelled.
- Metrics.AdMetricsOf: campaign spend, impressions, clicks and action values are modelled as already parsed numbers. NaN from `parseInt`/`parseFloat` on malformed strings is not modelled.
- The metrics route's `metrics` query parameter is unused by the code and not modelled.
- The media limit 100 and the campaign limit 50 belong to the Graph API oracle.
- The proxy reads `Date.now()` twice for a hit: for the freshness test and for the age header. The model uses one reading for both.
- CallbackPage.FixedCallbackStored: assumes the browser sends an `oauth_state` cookie equal to the stored state. The Business Login start (app/api/meta/business-login/start/route.ts:21) keeps the state only in session storage, and only the other OAuth start sets that cookie, so the correction also needs the start route to write it; that route is not part of this model.
- Health.CheckHealth: `last_check` and `last_success` come from two `new Date()` readings. The model uses one clock reading for both, so it states them equal.
- TokenRoutes.ExpiryInstant: `setSeconds(getSeconds() + s)` works on local time, so across a daylight-saving change the expiry is off by the change. The model assumes a process clock without such changes, such as UTC.
- Text.Take: counts characters (code points), while `substring` counts UTF-16 code units. Transcript cuts at 200 and 500 can differ for text outside the Basic Multilingual Plane, and the source can split a surrogate pair.
- Sorting.LexLe: compares code points, while `.sort()` compares UTF-16 code units. The orders differ between characters outside the Basic Multilingual Plane and U+E000–U+FFFF; frame file names are ASCII.
- Text.ParseInt: reads digits exactly, while `parseInt` returns a double. Numbers beyond 2^53 are rounded by the source (99999999999999999 reads as 100000000000000000) and not by the model.
- The Pages Router handler's query string also contains the `path` parameter. The model takes the query string as given.
- The proxy's response bodies are opaque text.
- Not part of this model: the remaining routes (`me`, `media`, `comments`, `threads`, Facebook posts, `ads/accounts`, `ads/campaigns`, `oauth/start`, `business-login/start`, `business-login/callback`), the Graph API client in lib/meta.ts apart from the insights fold, and the React pages and widgets.
- The thumbnail score pattern is `(?:overall\s+)?score[:\s]+(\d+)`. It is modelled as `score[:\s]+(\d+)`. The optional prefix consists of letters and spaces that cannot contain `score`, so both patterns capture the same number.

## Findings

| source | as written | input that shows it | evidently intended | confidence | as-written member | corrected member |
|---|---|---|---|---|---|---|
| app/connect/business-callback/page.tsx:84-88 | the page posts `accessToken`, `longLivedToken` and `expiresIn` to the store-token route without the state; the route (app/api/meta/business-login/store-token/route.ts:16-22) rejects any body without a state equal to the `oauth_state` cookie | any fragment that passes the page's CSRF test, e.g. `#access_token=a&long_lived_token=b&expires_in=3600&state=s` with `s` in session storage: the route answers 400 `Invalid state parameter` | the body carries the verified state and the Business Login start (app/api/meta/business-login/start/route.ts:21), which now keeps the state only in session storage, also sets it as the `oauth_state` cookie; with both, a callback passing the page's test is stored | medium, not executed | CallbackPage.VerifiedCallbackFailsAsWritten | CallbackPage.FixedCallbackStored |
| app/api/meta/metrics/route.ts:134 | the route adds `insights.engagement`, but the insights request (lib/meta.ts:79) asks for reach, likes, comments, shares, saves, plays and total_interactions, and the fold keys by the returned names, so `engagement` is never set | a post whose insights reply is reach 120, total_interactions 15: total engagement 0 and engagement rate 0 | engagement is read from `total_interactions`, giving 15 and a rate of 12.5 | medium, not executed | Metrics.EngagementKeyCounterexample | Metrics.FixedMetricsGet |
