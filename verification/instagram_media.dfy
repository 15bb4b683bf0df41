/** Media predicates and batch download (lib/instagram-media.ts).

    The HTTP download is an oracle `fetch` from a URL to the response body or
    the client's error message; date parsing is an oracle from a timestamp
    string to an `Instant`. `Promise.allSettled` over a chunk is modelled as
    running the chunk's tasks one after the other. */
module InstagramMediaOps {
  import opened Wrappers
  import opened Text
  import opened Media

  const NotDownloadableError: string := "Media not downloadable (copyrighted or no URL)"
  const NoUrlError: string := "No media URL available (may be copyrighted content)"
  const DownloadPrefix: string := "Failed to download media: "

  /** Copyrighted or flagged media come without a `media_url`. */
  predicate IsMediaDownloadable(media: InstagramMedia) {
    Truthy(media.mediaUrl)
  }

  /** `getMediaDownloadUrl(media)`: the media URL whatever the type, or null. */
  function GetMediaDownloadUrl(media: InstagramMedia): (url: Option<string>)
    ensures url.None? <==> !IsMediaDownloadable(media)
    ensures url.Some? ==> url == media.mediaUrl && url.value != ""
  {
    if !Truthy(media.mediaUrl) then None
    else if media.mediaType.Video? then media.mediaUrl
    else media.mediaUrl
  }

  /** `getThumbnailUrl(media)`: a video's own thumbnail when it has one,
      otherwise the media URL, or null when that is missing or empty. */
  function GetThumbnailUrl(media: InstagramMedia): (url: Option<string>)
    ensures media.mediaType.Video? && Truthy(media.thumbnailUrl) ==> url == media.thumbnailUrl
    ensures !(media.mediaType.Video? && Truthy(media.thumbnailUrl)) ==> url == GetMediaDownloadUrl(media)
    ensures url.Some? ==> url.value != ""
  {
    if media.mediaType.Video? && Truthy(media.thumbnailUrl) then media.thumbnailUrl
    else if Truthy(media.mediaUrl) then media.mediaUrl
    else None
  }

  datatype SizeEstimate = SizeEstimate(estimated: bool, sizeKB: nat)

  /** `estimateMediaSize(media)`: a fixed guess per media type. */
  function EstimateMediaSize(media: InstagramMedia): (e: SizeEstimate)
    ensures e.estimated
    ensures media.mediaType.Video? <==> e.sizeKB == 15000
    ensures media.mediaType.Image? <==> e.sizeKB == 500
    ensures media.mediaType.CarouselAlbum? <==> e.sizeKB == 2000
  {
    match media.mediaType
    case Video => SizeEstimate(true, 15000)
    case Image => SizeEstimate(true, 500)
    case CarouselAlbum => SizeEstimate(true, 2000)
  }

  // ---------------------------------------------------------------- filter

  /** A JavaScript `Date`: a time value in milliseconds, or an invalid date. */
  datatype Instant = Time(ms: int) | InvalidDate

  /** `a < b` on dates: every comparison with an invalid date is false. */
  predicate Before(a: Instant, b: Instant) {
    a.Time? && b.Time? && a.ms < b.ms
  }

  /** The options of `shouldDownloadMedia`; absent flags are false. */
  datatype DownloadFilter = DownloadFilter(
    onlyVideos: bool, onlyImages: bool, minTimestamp: Option<Instant>, maxTimestamp: Option<Instant>)

  /** The time test applied to a media item dated `d`. */
  predicate WithinBounds(d: Instant, filter: DownloadFilter) {
    !(filter.minTimestamp.Some? && Before(d, filter.minTimestamp.value)) &&
    !(filter.maxTimestamp.Some? && Before(filter.maxTimestamp.value, d))
  }

  /** `shouldDownloadMedia(media, options)`: downloadable, of the requested
      type, and (when the item has a timestamp) not outside the bounds. */
  function ShouldDownloadMedia(media: InstagramMedia, filter: DownloadFilter, parseDate: string -> Instant): (r: bool)
    ensures r ==> IsMediaDownloadable(media)
    ensures r ==> (!filter.onlyVideos || media.mediaType.Video?) && (!filter.onlyImages || media.mediaType.Image?)
    ensures r ==> media.timestamp == "" || WithinBounds(parseDate(media.timestamp), filter)
    ensures (IsMediaDownloadable(media) && (!filter.onlyVideos || media.mediaType.Video?) &&
      (!filter.onlyImages || media.mediaType.Image?) &&
      (media.timestamp == "" || WithinBounds(parseDate(media.timestamp), filter))) ==> r
  {
    if !IsMediaDownloadable(media) then false
    else if filter.onlyVideos && !media.mediaType.Video? then false
    else if filter.onlyImages && !media.mediaType.Image? then false
    else if media.timestamp != "" then
      var d := parseDate(media.timestamp);
      if filter.minTimestamp.Some? && Before(d, filter.minTimestamp.value) then false
      else if filter.maxTimestamp.Some? && Before(filter.maxTimestamp.value, d) then false
      else true
    else true
  }

  /** Asking for only videos and only images selects nothing. */
  lemma BothTypeFiltersSelectNothing(media: InstagramMedia, filter: DownloadFilter, parseDate: string -> Instant)
    requires filter.onlyVideos && filter.onlyImages
    ensures !ShouldDownloadMedia(media, filter, parseDate)
  {
  }

  /** Both bounds are inclusive: an item dated exactly at a bound, or between
      them, passes the time test, and one strictly outside fails it. */
  lemma BoundsAreInclusive(t: int, lo: int, hi: int)
    ensures var f := DownloadFilter(false, false, Some(Time(lo)), Some(Time(hi)));
      WithinBounds(Time(t), f) <==> lo <= t <= hi
  {
  }

  /** An unparseable timestamp never fails the time test, and neither does an
      item without a timestamp. */
  lemma UndatedMediaPassTimeTest(media: InstagramMedia, filter: DownloadFilter, parseDate: string -> Instant)
    requires IsMediaDownloadable(media)
    requires !filter.onlyVideos && !filter.onlyImages
    requires media.timestamp == "" || parseDate(media.timestamp).InvalidDate?
    ensures ShouldDownloadMedia(media, filter, parseDate)
  {
  }

  // ---------------------------------------------------------------- download

  /** `downloadMedia(url)`: the client's error is rethrown behind a prefix. */
  function DownloadMedia(url: string, fetch: string -> Result<Bytes, string>): (r: Result<Bytes, string>)
    ensures r.Ok? <==> fetch(url).Ok?
    ensures r.Ok? ==> r.value == fetch(url).value
    ensures r.Err? ==> r.error == DownloadPrefix + fetch(url).error
  {
    match fetch(url)
    case Ok(b) => Ok(b)
    case Err(m) => Err(DownloadPrefix + m)
  }

  datatype Download = Download(buffer: Bytes, metadata: InstagramMedia)

  /** `downloadMediaWithMetadata(media)`: no request without a media URL; the
      record comes back unchanged beside the buffer. */
  function DownloadMediaWithMetadata(media: InstagramMedia, fetch: string -> Result<Bytes, string>)
    : (r: Result<Download, string>)
    ensures !IsMediaDownloadable(media) ==> r == Err(NoUrlError)
    ensures IsMediaDownloadable(media) ==> (r.Ok? <==> fetch(media.mediaUrl.value).Ok?)
    ensures r.Ok? ==> r.value.metadata == media && r.value.buffer == fetch(media.mediaUrl.value).value
    ensures r.Err? && IsMediaDownloadable(media) ==> r.error == DownloadPrefix + fetch(media.mediaUrl.value).error
  {
    var url := if media.mediaType.Video? then media.mediaUrl else media.mediaUrl;
    if !Truthy(url) then Err(NoUrlError)
    else match DownloadMedia(url.value, fetch)
      case Err(m) => Err(m)
      case Ok(b) => Ok(Download(b, media))
  }

  /** One entry of the batch result; `buffer` is null exactly when `error` is set. */
  datatype BatchItem = BatchItem(media: InstagramMedia, buffer: Option<Bytes>, error: Option<string>)

  /** The promise created for one item: it catches its own failure, so it never
      rejects. */
  function DownloadTask(media: InstagramMedia, fetch: string -> Result<Bytes, string>): (item: BatchItem)
    ensures item.media == media
    ensures item.buffer.None? <==> item.error.Some?
    ensures !IsMediaDownloadable(media) ==> item.error == Some(NotDownloadableError)
    ensures IsMediaDownloadable(media) ==> (item.buffer.Some? <==> fetch(media.mediaUrl.value).Ok?)
    ensures item.buffer.Some? ==> item.buffer.value == fetch(media.mediaUrl.value).value
    ensures IsMediaDownloadable(media) && item.error.Some? ==>
      item.error.value == DownloadPrefix + fetch(media.mediaUrl.value).error
  {
    if !IsMediaDownloadable(media) then BatchItem(media, None, Some(NotDownloadableError))
    else match DownloadMediaWithMetadata(media, fetch)
      case Ok(d) => BatchItem(media, Some(d.buffer), None)
      case Err(m) => BatchItem(media, None, Some(m))
  }

  /** The promises of a sequence of items, in order. */
  function Tasks(items: seq<InstagramMedia>, fetch: string -> Result<Bytes, string>): (r: seq<BatchItem>)
    ensures |r| == |items|
    ensures forall k :: 0 <= k < |items| ==> r[k] == DownloadTask(items[k], fetch)
  {
    if items == [] then [] else [DownloadTask(items[0], fetch)] + Tasks(items[1..], fetch)
  }

  /** `items` cut into consecutive chunks of `size` (the last may be shorter). */
  function Chunks<T>(items: seq<T>, size: nat): (r: seq<seq<T>>)
    requires size >= 1
    ensures forall k :: 0 <= k < |r| ==> 1 <= |r[k]| <= size
    ensures forall k :: 0 <= k < |r| - 1 ==> |r[k]| == size
    decreases |items|
  {
    if items == [] then []
    else if |items| <= size then [items]
    else [items[..size]] + Chunks(items[size..], size)
  }

  function Flatten<T>(chunks: seq<seq<T>>): seq<T> {
    if chunks == [] then [] else chunks[0] + Flatten(chunks[1..])
  }

  /** Chunking loses, duplicates and reorders nothing. */
  lemma {:induction false} FlattenChunks<T>(items: seq<T>, size: nat)
    requires size >= 1
    ensures Flatten(Chunks(items, size)) == items
    decreases |items|
  {
    if items != [] && |items| > size {
      FlattenChunks(items[size..], size);
      assert items == items[..size] + items[size..];
    }
  }

  lemma {:induction false} FlattenSnoc<T>(chunks: seq<seq<T>>, last: seq<T>)
    ensures Flatten(chunks + [last]) == Flatten(chunks) + last
    decreases |chunks|
  {
    if chunks == [] {
      assert [] + [last] == [last];
    } else {
      assert (chunks + [last])[1..] == chunks[1..] + [last];
      FlattenSnoc(chunks[1..], last);
    }
  }

  /** The first chunk is the first `size` items, or all of them. */
  lemma ChunksStep<T>(rest: seq<T>, size: nat)
    requires size >= 1 && rest != []
    ensures var n := if size < |rest| then size else |rest|;
      Chunks(rest, size) == [rest[..n]] + Chunks(rest[n..], size)
  {
    if |rest| <= size {
      assert rest[..|rest|] == rest;
      assert rest[|rest|..] == [];
    }
  }

  /** The batches settled before item `i` are the leading chunks of `items`,
      and together they are the first `i` items. */
  ghost predicate SettledChunks<T>(items: seq<T>, size: nat, done: seq<seq<T>>, i: nat)
    requires i <= |items|
  {
    size >= 1 ==> Chunks(items, size) == done + Chunks(items[i..], size) && Flatten(done) == items[..i]
  }

  lemma NoChunksSettled<T>(items: seq<T>, size: nat)
    ensures SettledChunks(items, size, [], 0)
  {
    assert items[0..] == items;
  }

  /** One round of the batch loop settles the next chunk. */
  lemma BatchStep<T>(items: seq<T>, size: nat, done: seq<seq<T>>, i: nat, end: nat)
    requires size >= 1 && i < |items| && end == (if i + size < |items| then i + size else |items|)
    requires SettledChunks(items, size, done, i)
    ensures SettledChunks(items, size, done + [items[i..end]], end)
  {
    var rest := items[i..];
    var batch := items[i..end];
    ChunksStep(rest, size);
    assert rest[..end - i] == batch;
    assert rest[end - i..] == items[end..];
    var later := Chunks(items[end..], size);
    assert Chunks(rest, size) == [batch] + later;
    assert done + ([batch] + later) == (done + [batch]) + later;
    FlattenSnoc(done, batch);
    assert items[..end] == items[..i] + batch;
  }

  /** `downloadMediaBatch(items, concurrency)`: chunks of `concurrency` items
      are settled one after another and their outcomes appended. The result has
      one entry per input item, in input order, each the outcome of that item's
      own task, so no failure aborts the batch; the batches settled so far are
      the leading chunks of `Chunks(items, concurrency)`. A `concurrency` below 1 never
      advances the loop, so it is allowed only for an empty list. */
  method DownloadMediaBatch(items: seq<InstagramMedia>, concurrency: nat, fetch: string -> Result<Bytes, string>)
    returns (results: seq<BatchItem>)
    requires concurrency >= 1 || items == []
    ensures |results| == |items|
    ensures forall k :: 0 <= k < |items| ==> results[k].media == items[k]
    ensures results == Tasks(items, fetch)
  {
    results := [];
    var i := 0;
    ghost var done: seq<seq<InstagramMedia>> := [];
    NoChunksSettled(items, concurrency);
    while i < |items|
      invariant 0 <= i <= |items|
      invariant |results| == i
      invariant forall k :: 0 <= k < i ==> results[k] == DownloadTask(items[k], fetch)
      invariant SettledChunks(items, concurrency, done, i)
      decreases |items| - i
    {
      var end := if i + concurrency < |items| then i + concurrency else |items|;
      var batch := items[i..end];
      BatchStep(items, concurrency, done, i, end);
      done := done + [batch];
      var settled: seq<BatchItem> := [];
      var j := 0;
      while j < |batch|
        invariant 0 <= j <= |batch|
        invariant |settled| == j
        invariant forall k :: 0 <= k < j ==> settled[k] == DownloadTask(batch[k], fetch)
      {
        settled := settled + [DownloadTask(batch[j], fetch)];
        j := j + 1;
      }
      results := results + settled;
      i := end;
    }
  }
}
