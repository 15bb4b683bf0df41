/** The analysis pipeline of lib/ai-analysis.ts: `analyzeContent` and the four
    analysers it dispatches to.

    The speech-to-text service and the chat model are oracles (`AiOracle`):
    the transcription reply for the buffer, and the reply (or thrown error) for
    each chat request. A request is described by what the code puts into it:
    the transcript excerpt, the caption and the base64 images; the fixed prompt
    texts are not modelled. Base64 encoding of a buffer is an oracle as well.
    Frame extraction is the `VideoFrames` model, so the temporary-directory
    state is threaded through a video analysis. */
module Analysis {
  import opened Wrappers
  import opened Text
  import opened Media
  import opened ScoreParsing
  import opened VideoFrames

  const TranscriptPrefix: string := "Failed to generate transcript: "

  /** The `TypeError` raised when `analyzeVideoContent` calls `toString` on
      `frames[0]` of an empty frame list. */
  const NoFrameError: string := "Cannot read properties of undefined (reading 'toString')"

  /** Frames `analyzeContent` asks for, of which the hook sees the first five. */
  const AnalysisFrameCount: nat := 10
  const HookFrameCount: nat := 5
  /** Images the hook request carries. */
  const HookImageCount: nat := 3
  /** Characters of the transcript quoted in the hook and content requests. */
  const HookTranscriptChars: nat := 200
  const ContentTranscriptChars: nat := 500

  // The label patterns, one word per `\s+`-separated part.
  const ScoreLabel: seq<string> := ["score"]
  const ClarityLabel: seq<string> := ["clarity"]
  const CompositionLabel: seq<string> := ["composition"]
  const AttentionLabel: seq<string> := ["attention"]
  const VisualAppealLabel: seq<string> := ["visual", "appeal"]
  const EngagementLabel: seq<string> := ["engagement"]
  const RelevanceLabel: seq<string> := ["relevance"]

  // The keywords the findings lists are collected under.
  const StrengthKeyword: Keyword := "strength"
  const WeaknessKeyword: Keyword := "weakness"
  const RecommendationKeyword: Keyword := "recommendation"
  const SuggestionKeyword: Keyword := "suggestion"

  // ---------------------------------------------------------------- oracles

  /** What the transcription endpoint returns: the text and, possibly, a language. */
  datatype WhisperReply = WhisperReply(text: string, language: Option<string>)

  /** The chat requests, by analyser. */
  datatype ChatRequest =
    | HookPrompt(transcriptHead: string, images: seq<string>)
    | ThumbnailPrompt(caption: Option<string>, image: string)
    | VideoContentPrompt(caption: Option<string>, transcriptHead: string, frameCount: nat, images: seq<string>)
    | ImageContentPrompt(caption: Option<string>, image: string)

  /** The transcription of the buffer, the reply content (`None` for a null
      content) or error of each chat request, and base64 encoding. */
  datatype AiOracle = AiOracle(
    transcribe: Result<WhisperReply, string>,
    chat: ChatRequest -> Result<Option<string>, string>,
    base64: Bytes -> string)

  // ---------------------------------------------------------------- results

  datatype Transcript = Transcript(text: string, language: string)

  datatype HookAnalysis = HookAnalysis(
    score: nat, strengths: seq<string>, weaknesses: seq<string>,
    recommendations: seq<string>, keyFrames: seq<string>)

  datatype ThumbnailAnalysis = ThumbnailAnalysis(
    score: nat, clarity: nat, composition: nat, attention: nat, recommendations: seq<string>)

  datatype ContentQuality = ContentQuality(
    overallScore: nat, visualAppeal: nat, engagement: nat, relevance: nat, suggestions: seq<string>)

  /** `ContentAnalysisResult` without the clock fields `analyzedAt` and
      `processingTimeMs`; the optional parts are `Option`s. */
  datatype ContentAnalysis = ContentAnalysis(
    mediaId: string,
    mediaType: MediaType,
    timestamp: string,
    transcript: Option<Transcript>,
    hookAnalysis: Option<HookAnalysis>,
    thumbnailAnalysis: Option<ThumbnailAnalysis>,
    contentQuality: Option<ContentQuality>)

  // ---------------------------------------------------------------- transcript

  /** `generateTranscript(buffer)`: the reply's text and language (`en` when
      the reply has none); a failure is rethrown behind a fixed prefix. */
  function GenerateTranscript(ai: AiOracle): (r: Result<Transcript, string>)
    ensures r.Ok? <==> ai.transcribe.Ok?
    ensures r.Ok? ==> r.value.text == ai.transcribe.value.text && r.value.language != ""
    ensures r.Ok? && Truthy(ai.transcribe.value.language) ==> r.value.language == ai.transcribe.value.language.value
    ensures r.Ok? && !Truthy(ai.transcribe.value.language) ==> r.value.language == "en"
    ensures r.Err? ==> r.error == TranscriptPrefix + ai.transcribe.error
  {
    match ai.transcribe
    case Err(m) => Err(TranscriptPrefix + m)
    case Ok(w) => Ok(Transcript(w.text, OrElse(w.language, "en")))
  }

  // ---------------------------------------------------------------- helpers

  /** `response.choices[0].message.content || ''`. */
  function ReplyText(content: Option<string>): (text: string)
    ensures content.Some? ==> text == content.value
    ensures content.None? ==> text == ""
  {
    content.GetOr("")
  }

  /** `frames.map(f => f.toString('base64'))`. */
  function EncodeAll(frames: seq<Bytes>, base64: Bytes -> string): (r: seq<string>)
    ensures |r| == |frames|
    ensures forall k :: 0 <= k < |frames| ==> r[k] == base64(frames[k])
  {
    if frames == [] then [] else [base64(frames[0])] + EncodeAll(frames[1..], base64)
  }

  // ---------------------------------------------------------------- hook

  /** The request `analyzeHook` sends: the first 200 characters of the
      transcript and the first three encoded frames. */
  function HookRequest(frames: seq<Bytes>, transcript: string, ai: AiOracle): (req: ChatRequest)
    ensures req.HookPrompt?
    ensures |req.images| <= HookImageCount && |req.images| <= |frames|
    ensures |req.images| == HookImageCount || |req.images| == |frames|
    ensures forall k :: 0 <= k < |req.images| ==> req.images[k] == ai.base64(frames[k])
    ensures |req.transcriptHead| == if |transcript| < HookTranscriptChars then |transcript| else HookTranscriptChars
    ensures req.transcriptHead == transcript[..|req.transcriptHead|]
  {
    HookPrompt(Take(transcript, HookTranscriptChars), Take(EncodeAll(frames, ai.base64), HookImageCount))
  }

  /** What `analyzeHook` reads out of the reply, given the encoded frames. */
  function HookFromReply(text: string, keyFrames: seq<string>): HookAnalysis
  {
    HookAnalysis(
      LabelledScore(text, ScoreLabel),
      ExtractListItems(text, StrengthKeyword),
      ExtractListItems(text, WeaknessKeyword),
      ExtractListItems(text, RecommendationKeyword),
      keyFrames)
  }

  /** `analyzeHook(frames, transcript)`: a failed chat call propagates; on a
      reply every received frame comes back encoded, in order, as `keyFrames`. */
  function AnalyzeHook(frames: seq<Bytes>, transcript: string, ai: AiOracle): (r: Result<HookAnalysis, string>)
    ensures var reply := ai.chat(HookRequest(frames, transcript, ai));
      (r.Ok? <==> reply.Ok?) && (r.Err? ==> r.error == reply.error) &&
      (r.Ok? ==> r.value == HookFromReply(ReplyText(reply.value), r.value.keyFrames))
    ensures r.Ok? ==> |r.value.keyFrames| == |frames|
    ensures r.Ok? ==> forall k :: 0 <= k < |frames| ==> r.value.keyFrames[k] == ai.base64(frames[k])
  {
    var keyFrames := EncodeAll(frames, ai.base64);
    match ai.chat(HookRequest(frames, transcript, ai))
    case Err(m) => Err(m)
    case Ok(content) => Ok(HookFromReply(ReplyText(content), keyFrames))
  }

  // ---------------------------------------------------------------- thumbnail

  /** The four numbers of `analyzeThumbnail`: the explicit score when the
      reply has one, otherwise the rounded mean of the three dimensions. */
  function ThumbnailFromReply(text: string): ThumbnailAnalysis {
    var clarity := LabelledScore(text, ClarityLabel);
    var composition := LabelledScore(text, CompositionLabel);
    var attention := LabelledScore(text, AttentionLabel);
    var score := if FirstMatchFrom(text, 0, ScoreLabel).Some? then LabelledScore(text, ScoreLabel)
      else RoundedMean(clarity, composition, attention);
    ThumbnailAnalysis(score, clarity, composition, attention, ExtractListItems(text, RecommendationKeyword))
  }

  /** `analyzeThumbnail(buffer, caption)`. */
  function AnalyzeThumbnail(image: Bytes, caption: Option<string>, ai: AiOracle): (r: Result<ThumbnailAnalysis, string>)
    ensures var reply := ai.chat(ThumbnailPrompt(caption, ai.base64(image)));
      (r.Ok? <==> reply.Ok?) && (r.Err? ==> r.error == reply.error) &&
      (r.Ok? ==> r.value == ThumbnailFromReply(ReplyText(reply.value)))
  {
    match ai.chat(ThumbnailPrompt(caption, ai.base64(image)))
    case Err(m) => Err(m)
    case Ok(content) => Ok(ThumbnailFromReply(ReplyText(content)))
  }

  // ---------------------------------------------------------------- content quality

  /** The numbers of `analyzeVideoContent` and `analyzeImageContent`: three
      labelled scores and their rounded mean. */
  function QualityFromReply(text: string): ContentQuality {
    var visualAppeal := LabelledScore(text, VisualAppealLabel);
    var engagement := LabelledScore(text, EngagementLabel);
    var relevance := LabelledScore(text, RelevanceLabel);
    ContentQuality(RoundedMean(visualAppeal, engagement, relevance), visualAppeal, engagement, relevance,
      ExtractListItems(text, SuggestionKeyword))
  }

  /** The beginning, middle and end frames `analyzeVideoContent` samples;
      `None` when there is no frame, where the source fails on `frames[0]`. */
  function SampleFrames<T>(frames: seq<T>): (r: Option<seq<T>>)
    ensures r.Some? <==> |frames| >= 1
    ensures r.Some? ==> |r.value| == 3
    ensures r.Some? ==> exists i, j, k :: (0 == i <= j <= k == |frames| - 1 && j == |frames| / 2 &&
      r.value == [frames[i], frames[j], frames[k]])
  {
    if frames == [] then None
    else
      var n := |frames|;
      assert 0 <= n / 2 <= n - 1;
      Some([frames[0], frames[n / 2], frames[n - 1]])
  }

  /** `analyzeVideoContent(frames, transcript, caption)`: three sampled frames
      and the first 500 characters of the transcript go into the request. */
  function VideoContentRequest(frames: seq<Bytes>, transcript: string, caption: Option<string>, ai: AiOracle): (req: Option<ChatRequest>)
    ensures req.Some? <==> |frames| >= 1
    ensures req.Some? ==> req.value.VideoContentPrompt? && |req.value.images| == 3
    ensures req.Some? ==> req.value.frameCount == |frames| && req.value.caption == caption
    ensures req.Some? ==> (req.value.images[0] == ai.base64(frames[0]) &&
      req.value.images[1] == ai.base64(frames[|frames| / 2]) &&
      req.value.images[2] == ai.base64(frames[|frames| - 1]))
    ensures req.Some? ==>
      |req.value.transcriptHead| == (if |transcript| < ContentTranscriptChars then |transcript| else ContentTranscriptChars) &&
      req.value.transcriptHead == transcript[..|req.value.transcriptHead|]
  {
    match SampleFrames(frames)
    case None => None
    case Some(sample) =>
      Some(VideoContentPrompt(caption, Take(transcript, ContentTranscriptChars), |frames|, EncodeAll(sample, ai.base64)))
  }

  function AnalyzeVideoContent(frames: seq<Bytes>, transcript: string, caption: Option<string>, ai: AiOracle): (r: Result<ContentQuality, string>)
    ensures frames == [] ==> r == Err(NoFrameError)
    ensures frames != [] ==> var reply := ai.chat(VideoContentRequest(frames, transcript, caption, ai).value);
      (r.Ok? <==> reply.Ok?) && (r.Err? ==> r.error == reply.error) &&
      (r.Ok? ==> r.value == QualityFromReply(ReplyText(reply.value)))
  {
    match VideoContentRequest(frames, transcript, caption, ai)
    case None => Err(NoFrameError)
    case Some(req) =>
      match ai.chat(req)
      case Err(m) => Err(m)
      case Ok(content) => Ok(QualityFromReply(ReplyText(content)))
  }

  /** `analyzeImageContent(buffer, caption)`. */
  function AnalyzeImageContent(image: Bytes, caption: Option<string>, ai: AiOracle): (r: Result<ContentQuality, string>)
    ensures var reply := ai.chat(ImageContentPrompt(caption, ai.base64(image)));
      (r.Ok? <==> reply.Ok?) && (r.Err? ==> r.error == reply.error) &&
      (r.Ok? ==> r.value == QualityFromReply(ReplyText(reply.value)))
  {
    match ai.chat(ImageContentPrompt(caption, ai.base64(image)))
    case Err(m) => Err(m)
    case Ok(content) => Ok(QualityFromReply(ReplyText(content)))
  }

  // ---------------------------------------------------------------- dispatch

  /** The frame request `analyzeContent` makes: ten frames, default quality. */
  const AnalysisFrames: FrameRequest := FrameRequest(Some(AnalysisFrameCount as int), None, None)

  /** The video branch: transcript, ten frames, the hook on the first five,
      then content quality on all of them. The first stage that fails gives
      the error; the frame extraction's directory state is kept either way. */
  function AnalyzeVideo(base: ContentAnalysis, caption: Option<string>, ai: AiOracle, tools: Tooling, fs: TempFs)
    : (run: Run<ContentAnalysis>)
    ensures var transcript := GenerateTranscript(ai);
      transcript.Err? ==> run == Run(Err(transcript.error), fs)
    ensures var extraction := ExtractVideoFrames(AnalysisFrames, tools, fs);
      GenerateTranscript(ai).Ok? ==> run.fs == extraction.fs
    ensures var extraction := ExtractVideoFrames(AnalysisFrames, tools, fs).result;
      GenerateTranscript(ai).Ok? && extraction.Err? ==> run.result == Err(extraction.error)
    ensures var transcript := GenerateTranscript(ai);
      var extraction := ExtractVideoFrames(AnalysisFrames, tools, fs).result;
      transcript.Ok? && extraction.Ok? ==>
        var hook := AnalyzeHook(Take(extraction.value, HookFrameCount), transcript.value.text, ai);
        var quality := AnalyzeVideoContent(extraction.value, transcript.value.text, caption, ai);
        (hook.Err? ==> run.result == Err(hook.error)) &&
        (hook.Ok? && quality.Err? ==> run.result == Err(quality.error)) &&
        (hook.Ok? && quality.Ok? ==> run.result == Ok(base.(
          transcript := Some(transcript.value), hookAnalysis := Some(hook.value), contentQuality := Some(quality.value))))
    ensures Valid(fs) ==> Valid(run.fs)
    ensures Valid(fs) && tools.dir.removeSucceeds ==> run.fs.live == fs.live
  {
    match GenerateTranscript(ai)
    case Err(m) => Run(Err(m), fs)
    case Ok(t) =>
      var extraction := ExtractVideoFrames(AnalysisFrames, tools, fs);
      match extraction.result
      case Err(m) => Run(Err(m), extraction.fs)
      case Ok(frames) =>
        match AnalyzeHook(Take(frames, HookFrameCount), t.text, ai)
        case Err(m) => Run(Err(m), extraction.fs)
        case Ok(hook) =>
          match AnalyzeVideoContent(frames, t.text, caption, ai)
          case Err(m) => Run(Err(m), extraction.fs)
          case Ok(quality) =>
            Run(Ok(base.(transcript := Some(t), hookAnalysis := Some(hook), contentQuality := Some(quality))), extraction.fs)
  }

  /** The image branch: thumbnail, then content quality; the first that fails
      gives the error. */
  function AnalyzeImage(base: ContentAnalysis, image: Bytes, caption: Option<string>, ai: AiOracle)
    : (r: Result<ContentAnalysis, string>)
    ensures var thumbnail := AnalyzeThumbnail(image, caption, ai);
      var quality := AnalyzeImageContent(image, caption, ai);
      r.Ok? <==> thumbnail.Ok? && quality.Ok?
    ensures var thumbnail := AnalyzeThumbnail(image, caption, ai);
      thumbnail.Err? ==> r == Err(thumbnail.error)
    ensures var thumbnail := AnalyzeThumbnail(image, caption, ai);
      var quality := AnalyzeImageContent(image, caption, ai);
      thumbnail.Ok? && quality.Err? ==> r == Err(quality.error)
    ensures var thumbnail := AnalyzeThumbnail(image, caption, ai);
      var quality := AnalyzeImageContent(image, caption, ai);
      r.Ok? ==> r.value == base.(thumbnailAnalysis := Some(thumbnail.value), contentQuality := Some(quality.value))
  {
    match AnalyzeThumbnail(image, caption, ai)
    case Err(m) => Err(m)
    case Ok(thumbnail) =>
      match AnalyzeImageContent(image, caption, ai)
      case Err(m) => Err(m)
      case Ok(quality) => Ok(base.(thumbnailAnalysis := Some(thumbnail), contentQuality := Some(quality)))
  }

  /** The fields set before dispatch; `timestamp || now`. */
  function BaseResult(media: InstagramMedia, now: string): ContentAnalysis {
    ContentAnalysis(media.id, media.mediaType, OrElse(Some(media.timestamp), now), None, None, None, None)
  }

  /** `analyzeContent(buffer, media)`. Which parts of the result are present
      depends only on the media type; no stage error is caught, so any failure
      leaves no result; only a video analysis touches temporary directories,
      and it leaves the live set as it found it. */
  function AnalyzeContent(media: InstagramMedia, buffer: Bytes, now: string, ai: AiOracle, tools: Tooling, fs: TempFs)
    : (run: Run<ContentAnalysis>)
    ensures run.result.Ok? ==> run.result.value.mediaId == media.id && run.result.value.mediaType == media.mediaType
    ensures run.result.Ok? ==> run.result.value.timestamp == (if media.timestamp != "" then media.timestamp else now)
    ensures run.result.Ok? ==> var a := run.result.value;
      (a.transcript.Some? <==> media.mediaType.Video?) &&
      (a.hookAnalysis.Some? <==> media.mediaType.Video?) &&
      (a.thumbnailAnalysis.Some? <==> !media.mediaType.Video?) &&
      (a.contentQuality.Some? <==> !media.mediaType.CarouselAlbum?)
    ensures run.result.Ok? && media.mediaType.Video? ==>
      ai.transcribe.Ok? && run.result.value.transcript == Some(GenerateTranscript(ai).value) &&
      |run.result.value.hookAnalysis.value.keyFrames| <= HookFrameCount
    ensures media.mediaType.Video? ==> run == AnalyzeVideo(BaseResult(media, now), media.caption, ai, tools, fs)
    ensures media.mediaType.Image? ==> run.result == AnalyzeImage(BaseResult(media, now), buffer, media.caption, ai)
    ensures var thumbnail := AnalyzeThumbnail(buffer, media.caption, ai);
      media.mediaType.CarouselAlbum? ==>
        (thumbnail.Err? ==> run.result == Err(thumbnail.error)) &&
        (thumbnail.Ok? ==> run.result == Ok(BaseResult(media, now).(thumbnailAnalysis := Some(thumbnail.value))))
    ensures !media.mediaType.Video? ==> run.fs == fs
    ensures Valid(fs) ==> Valid(run.fs)
    ensures Valid(fs) && tools.dir.removeSucceeds ==> run.fs.live == fs.live
  {
    var base := BaseResult(media, now);
    match media.mediaType
    case Video => AnalyzeVideo(base, media.caption, ai, tools, fs)
    case Image => Run(AnalyzeImage(base, buffer, media.caption, ai), fs)
    case CarouselAlbum =>
      match AnalyzeThumbnail(buffer, media.caption, ai)
      case Err(m) => Run(Err(m), fs)
      case Ok(thumbnail) => Run(Ok(base.(thumbnailAnalysis := Some(thumbnail))), fs)
  }

  // ---------------------------------------------------------------- lemmas

  /** A failed transcription ends a video analysis before any frame is
      extracted: the prefixed error, and no directory created. */
  lemma TranscriptFailureStopsVideo(media: InstagramMedia, buffer: Bytes, now: string, ai: AiOracle, tools: Tooling, fs: TempFs)
    requires media.mediaType.Video? && ai.transcribe.Err?
    ensures AnalyzeContent(media, buffer, now, ai, tools, fs) == Run(Err(TranscriptPrefix + ai.transcribe.error), fs)
  {
  }

  /** A video from which no frame could be read cannot be analysed: whatever
      the hook request answers, the content stage fails. */
  lemma NoFramesNoResult(media: InstagramMedia, buffer: Bytes, now: string, ai: AiOracle, tools: Tooling, fs: TempFs)
    requires media.mediaType.Video? && ai.transcribe.Ok?
    requires ExtractVideoFrames(AnalysisFrames, tools, fs).result == Ok([])
    ensures AnalyzeContent(media, buffer, now, ai, tools, fs).result.Err?
  {
  }

  /** The thumbnail score is the explicit `score` number when the reply has
      one; otherwise it is the rounded mean of clarity, composition and
      attention, each the first number after its label or 50. */
  lemma ThumbnailScoreRule(text: string)
    ensures var t := ThumbnailFromReply(text);
      (forall q :: 0 <= q <= |text| ==> MatchAt(text, q, ScoreLabel).None?) ==>
        t.score == RoundedMean(t.clarity, t.composition, t.attention)
    ensures var t := ThumbnailFromReply(text);
      forall q | 0 <= q <= |text| && IsFirstMatch(text, q, ScoreLabel) :: t.score == MatchAt(text, q, ScoreLabel).value
    ensures var t := ThumbnailFromReply(text);
      t.clarity == LabelledScore(text, ClarityLabel) && t.composition == LabelledScore(text, CompositionLabel) &&
      t.attention == LabelledScore(text, AttentionLabel)
  {
    LabelledScoreIsFirstCapture(text, ScoreLabel);
  }

  /** When none of the three labels occurs, every content-quality number is
      the default 50. */
  lemma UnlabelledReplyScoresFifty(text: string)
    requires forall q :: 0 <= q <= |text| ==> MatchAt(text, q, VisualAppealLabel).None?
    requires forall q :: 0 <= q <= |text| ==> MatchAt(text, q, EngagementLabel).None?
    requires forall q :: 0 <= q <= |text| ==> MatchAt(text, q, RelevanceLabel).None?
    ensures var q := QualityFromReply(text);
      q.overallScore == q.visualAppeal == q.engagement == q.relevance == DefaultScore
  {
    LabelledScoreIsFirstCapture(text, VisualAppealLabel);
    LabelledScoreIsFirstCapture(text, EngagementLabel);
    LabelledScoreIsFirstCapture(text, RelevanceLabel);
  }

  /** The hook sees at most five frames, sends at most three of them, and
      hands back exactly the ones it saw. */
  lemma HookSeesFirstFive(frames: seq<Bytes>, transcript: string, ai: AiOracle)
    ensures var hookFrames := Take(frames, HookFrameCount);
      var req := HookRequest(hookFrames, transcript, ai);
      var r := AnalyzeHook(hookFrames, transcript, ai);
      |hookFrames| <= HookFrameCount && |req.images| <= HookImageCount &&
      (forall k :: 0 <= k < |req.images| ==> req.images[k] == ai.base64(frames[k])) &&
      (r.Ok? ==> r.value.keyFrames == EncodeAll(hookFrames, ai.base64))
  {
  }

  /** Image and carousel analyses neither depend on the frame tooling nor
      change the directory state. */
  lemma StillMediaIgnoreTooling(media: InstagramMedia, buffer: Bytes, now: string, ai: AiOracle,
                                tools: Tooling, tools': Tooling, fs: TempFs)
    requires !media.mediaType.Video?
    ensures AnalyzeContent(media, buffer, now, ai, tools, fs) == AnalyzeContent(media, buffer, now, ai, tools', fs)
  {
  }

  /** Every external call the media type needs answers: for a video the
      transcription, a frame extraction yielding at least one frame, and the
      hook and content requests; for an image the thumbnail and content
      requests; for a carousel the thumbnail request. */
  ghost predicate CallsAnswer(media: InstagramMedia, buffer: Bytes, ai: AiOracle, tools: Tooling, fs: TempFs) {
    var thumbnail := ai.chat(ThumbnailPrompt(media.caption, ai.base64(buffer)));
    match media.mediaType
    case Video =>
      var frames := ExtractVideoFrames(AnalysisFrames, tools, fs).result;
      ai.transcribe.Ok? && frames.Ok? && frames.value != [] &&
      ai.chat(HookRequest(Take(frames.value, HookFrameCount), ai.transcribe.value.text, ai)).Ok? &&
      ai.chat(VideoContentRequest(frames.value, ai.transcribe.value.text, media.caption, ai).value).Ok?
    case Image => thumbnail.Ok? && ai.chat(ImageContentPrompt(media.caption, ai.base64(buffer))).Ok?
    case CarouselAlbum => thumbnail.Ok?
  }

  /** An analysis yields a result exactly when every call its media type
      needs answers. */
  lemma AnalysisSucceedsExactly(media: InstagramMedia, buffer: Bytes, now: string, ai: AiOracle, tools: Tooling, fs: TempFs)
    ensures AnalyzeContent(media, buffer, now, ai, tools, fs).result.Ok? <==> CallsAnswer(media, buffer, ai, tools, fs)
  {
  }
}
