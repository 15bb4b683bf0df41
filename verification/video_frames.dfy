/** Frame extraction with ffmpeg (lib/video-utils.ts).

    ffmpeg, ffprobe and the file system are oracles: a `Tooling` value holds
    their answers for one call (whether `ffmpeg -version` succeeds, whether
    `mkdtemp` and the write of `input.mp4` fail, what the probe prints, how
    each ffmpeg command ends, what `readdir` lists and what each file read
    returns). Temporary directories are an abstract set of live directory
    names, so that the cleanup discipline of every `finally` block can be
    stated: a call leaves the set of live directories as it found it. */
module VideoFrames {
  import opened Wrappers
  import opened Text
  import opened Sorting
  import opened Media

  const DefaultCount: int := 10
  const DefaultQuality: int := 2
  /** Seconds assumed when the duration probe fails. */
  const FallbackDuration: real := 30.0

  const InstallMessage: string :=
    "ffmpeg is not installed. Please install it:\n" +
    "  Windows: choco install ffmpeg\n" +
    "  Mac: brew install ffmpeg\n" +
    "  Linux: apt-get install ffmpeg"

  const FramesPrefix: string := "Failed to extract video frames: "
  const MetadataPrefix: string := "Failed to get video metadata: "

  /** The message `extractSingleFrame` wraps errors in. */
  function SingleFramePrefix(at: nat): string {
    "Failed to extract frame at " + NatToString(at) + "s: "
  }

  // ---------------------------------------------------------------- temp dirs

  /** Live temporary directories, and the next name `mkdtemp` hands out. */
  datatype TempFs = TempFs(live: set<nat>, next: nat)

  /** Every live directory was handed out earlier, so the next name is fresh. */
  predicate Valid(fs: TempFs) {
    forall d :: d in fs.live ==> d < fs.next
  }

  /** How `mkdtemp` and the `fs.rm` of the `finally` block behave. */
  datatype DirOracle = DirOracle(mkdtempError: Option<string>, removeSucceeds: bool)

  /** The outcome of an extraction and the directory state it leaves. */
  datatype Run<T> = Run(result: Result<T, string>, fs: TempFs)

  /** The shape every extraction shares: `mkdtemp` (a failure there is thrown
      before the `try`), the work, the `catch` that rethrows the work's error
      behind `prefix`, and the `finally` that removes the directory, a failed
      removal being logged and swallowed. */
  function InTempDir<T>(fs: TempFs, dir: DirOracle, work: Result<T, string>, prefix: string): (run: Run<T>)
    ensures dir.mkdtempError.Some? ==> run == Run(Err(dir.mkdtempError.value), fs)
    ensures dir.mkdtempError.None? && work.Ok? ==> run.result == work
    ensures dir.mkdtempError.None? && work.Err? ==> run.result == Err(prefix + work.error)
    ensures Valid(fs) ==> Valid(run.fs)
    ensures Valid(fs) && dir.removeSucceeds ==> run.fs.live == fs.live
    ensures dir.mkdtempError.None? && !dir.removeSucceeds ==> run.fs.live == fs.live + {fs.next}
  {
    if dir.mkdtempError.Some? then Run(Err(dir.mkdtempError.value), fs)
    else
      var d := fs.next;
      var created := TempFs(fs.live + {d}, fs.next + 1);
      var result := match work
        case Ok(v) => Ok(v)
        case Err(m) => Err(prefix + m);
      var after := if dir.removeSucceeds then TempFs(created.live - {d}, created.next) else created;
      Run(result, after)
  }

  // ---------------------------------------------------------------- frame files

  predicate StartsWith(s: string, p: string) {
    OccursAt(s, 0, p)
  }

  predicate EndsWith(s: string, p: string) {
    |p| <= |s| && OccursAt(s, |s| - |p|, p)
  }

  /** The names ffmpeg writes for the `frame-%03d.jpg` pattern pass this test. */
  predicate IsFrameFile(name: string) {
    StartsWith(name, "frame-") && EndsWith(name, ".jpg")
  }

  /** `files.filter(f => f.startsWith('frame-') && f.endsWith('.jpg'))`. */
  function FrameFiles(files: seq<string>): (r: seq<string>)
    ensures forall f :: multiset(r)[f] == if IsFrameFile(f) then multiset(files)[f] else 0
    ensures forall k :: 0 <= k < |r| ==> IsFrameFile(r[k]) && r[k] in files
  {
    if files == [] then []
    else
      assert files == [files[0]] + files[1..];
      if IsFrameFile(files[0]) then [files[0]] + FrameFiles(files[1..])
      else FrameFiles(files[1..])
  }

  /** The end index `slice(0, end)` uses: a negative end counts from the back. */
  function SliceEnd(len: nat, end: int): (e: nat)
    ensures e <= len
    ensures end >= 0 ==> e == (if end < len then end else len)
  {
    if end < 0 then (if len + end < 0 then 0 else len + end)
    else if end < len then end else len
  }

  /** `frameFiles.sort().slice(0, count)`: the frame files of the listing in
      lexical order, cut to `count`. For a non-negative `count` they are the
      `count` lexically smallest (all of them when there are fewer). */
  function SelectFrameFiles(listing: seq<string>, count: int): (r: seq<string>)
    ensures Sorted(r)
    ensures forall k :: 0 <= k < |r| ==> IsFrameFile(r[k]) && r[k] in listing
    ensures count >= 0 ==> |r| == (if count < |FrameFiles(listing)| then count else |FrameFiles(listing)|)
    ensures multiset(r) <= multiset(FrameFiles(listing))
    ensures count >= |FrameFiles(listing)| ==> multiset(r) == multiset(FrameFiles(listing))
    ensures forall k, f :: 0 <= k < |r| && f in multiset(FrameFiles(listing)) - multiset(r) ==> LexLe(r[k], f)
  {
    var all := FrameFiles(listing);
    var sorted := Sort(all);
    var n := SliceEnd(|sorted|, count);
    assert |sorted| == |all| && multiset(sorted) == multiset(all);
    PrefixOfSorted(sorted, n);
    PrefixOfSortedIsSmallest(sorted, n);
    PrefixDrawsFrom(listing, all, sorted, n);
    assert n == |sorted| ==> sorted[..n] == sorted;
    sorted[..n]
  }

  /** A prefix of a sorted sequence is sorted. */
  lemma PrefixOfSorted(sorted: seq<string>, n: nat)
    requires Sorted(sorted) && n <= |sorted|
    ensures Sorted(sorted[..n])
  {
    assert forall i :: 0 <= i < n ==> sorted[..n][i] == sorted[i];
  }

  /** Every element of a prefix of a permutation of the frame files is a frame
      file of the listing. */
  lemma PrefixDrawsFrom(listing: seq<string>, all: seq<string>, sorted: seq<string>, n: nat)
    requires all == FrameFiles(listing)
    requires multiset(sorted) == multiset(all) && n <= |sorted|
    ensures forall k :: 0 <= k < n ==> IsFrameFile(sorted[..n][k]) && sorted[..n][k] in listing
  {
    forall k | 0 <= k < n
      ensures IsFrameFile(sorted[..n][k]) && sorted[..n][k] in listing
    {
      var x := sorted[k];
      assert x in multiset(sorted);
      assert x in multiset(all);
      var i :| 0 <= i < |all| && all[i] == x;
    }
  }

  /** The first `n` elements of a sorted sequence precede all the others. */
  lemma PrefixOfSortedIsSmallest(sorted: seq<string>, n: nat)
    requires Sorted(sorted) && n <= |sorted|
    ensures multiset(sorted[..n]) <= multiset(sorted)
    ensures forall k, f :: 0 <= k < n && f in multiset(sorted) - multiset(sorted[..n]) ==> LexLe(sorted[k], f)
  {
    assert sorted == sorted[..n] + sorted[n..];
    assert multiset(sorted) == multiset(sorted[..n]) + multiset(sorted[n..]);
    forall k, f | 0 <= k < n && f in multiset(sorted) - multiset(sorted[..n])
      ensures LexLe(sorted[k], f)
    {
      assert f in multiset(sorted[n..]);
      assert f in sorted[n..];
      var m :| n <= m < |sorted| && sorted[m] == f;
    }
  }

  // ---------------------------------------------------------------- frame reads

  /** Index of the first name whose read fails (`|names|` when none does). */
  function FirstUnreadable(names: seq<string>, read: string -> Result<Bytes, string>): (k: nat)
    ensures k <= |names|
    ensures forall j :: 0 <= j < k ==> read(names[j]).Ok?
    ensures k < |names| ==> read(names[k]).Err?
  {
    if names == [] || read(names[0]).Err? then 0
    else 1 + FirstUnreadable(names[1..], read)
  }

  /** Reads every name in order; the first failing read aborts with its error. */
  function ReadAll(names: seq<string>, read: string -> Result<Bytes, string>): (r: Result<seq<Bytes>, string>)
    ensures r.Ok? <==> forall k :: 0 <= k < |names| ==> read(names[k]).Ok?
    ensures r.Ok? ==> |r.value| == |names| && forall k :: 0 <= k < |names| ==> read(names[k]) == Ok(r.value[k])
    ensures r.Err? ==> (FirstUnreadable(names, read) < |names| &&
      read(names[FirstUnreadable(names, read)]) == Err(r.error))
  {
    if names == [] then Ok([])
    else match read(names[0])
      case Err(m) => Err(m)
      case Ok(b) =>
        match ReadAll(names[1..], read)
        case Err(m) => Err(m)
        case Ok(rest) => Ok([b] + rest)
  }

  /** The `for ... of` loop that pushes each frame buffer. */
  method ReadFrameFiles(names: seq<string>, read: string -> Result<Bytes, string>)
    returns (r: Result<seq<Bytes>, string>)
    ensures r == ReadAll(names, read)
  {
    var frames: seq<Bytes> := [];
    var i := 0;
    while i < |names|
      invariant 0 <= i <= |names|
      invariant forall j :: 0 <= j < i ==> read(names[j]).Ok?
      invariant |frames| == i
      invariant forall j :: 0 <= j < i ==> read(names[j]) == Ok(frames[j])
    {
      var b := read(names[i]);
      if b.Err? {
        ReadAllStopsAtFirstFailure(names, read, i);
        return Err(b.error);
      }
      frames := frames + [b.value];
      i := i + 1;
    }
    ReadAllSucceeds(names, read, frames);
    return Ok(frames);
  }

  lemma {:induction false} ReadAllStopsAtFirstFailure(names: seq<string>, read: string -> Result<Bytes, string>, i: nat)
    requires i < |names| && read(names[i]).Err?
    requires forall j :: 0 <= j < i ==> read(names[j]).Ok?
    ensures ReadAll(names, read) == Err(read(names[i]).error)
    decreases i
  {
    if i > 0 {
      ReadAllStopsAtFirstFailure(names[1..], read, i - 1);
    }
  }

  lemma {:induction false} ReadAllSucceeds(names: seq<string>, read: string -> Result<Bytes, string>, frames: seq<Bytes>)
    requires |frames| == |names|
    requires forall j :: 0 <= j < |names| ==> read(names[j]) == Ok(frames[j])
    ensures ReadAll(names, read) == Ok(frames)
    decreases |names|
  {
    if names != [] {
      ReadAllSucceeds(names[1..], read, frames[1..]);
      assert frames == [frames[0]] + frames[1..];
    }
  }

  // ---------------------------------------------------------------- commands

  /** The ffmpeg invocations; the float `fps` expressions are kept as their
      operands. */
  datatype FfmpegCommand =
    | EveryInterval(interval: real, quality: int)          // -vf "fps=1/interval"
    | EvenSpread(count: int, duration: real, quality: int) // -vf "fps=count/duration"
    | SingleFrame(at: nat, quality: int)                   // -ss at -vframes 1

  /** The options object of `extractVideoFrames`; absent fields are `None`. */
  datatype FrameRequest = FrameRequest(count: Option<int>, interval: Option<real>, quality: Option<int>)

  /** What the tools and the file system answer during one call. */
  datatype Tooling = Tooling(
    ffmpegInstalled: bool,
    dir: DirOracle,
    writeError: Option<string>,
    probe: Option<real>,
    run: FfmpegCommand -> Option<string>,
    listing: Result<seq<string>, string>,
    readFile: string -> Result<Bytes, string>)

  /** `getVideoDuration`: the probed duration, or 30 seconds when the probe
      command throws. */
  function VideoDuration(probe: Option<real>): (d: real)
    ensures probe.Some? ==> d == probe.value
    ensures probe.None? ==> d == FallbackDuration
  {
    probe.GetOr(FallbackDuration)
  }

  /** A truthy `interval` (present and non-zero) selects the fixed cadence;
      otherwise `count` frames are spread over the duration. */
  function ChooseCommand(req: FrameRequest, duration: real): (cmd: FfmpegCommand)
    ensures cmd.EveryInterval? <==> req.interval.Some? && req.interval.value != 0.0
    ensures cmd.EveryInterval? ==> cmd.interval == req.interval.value
    ensures cmd.EvenSpread? ==> cmd.count == req.count.GetOr(DefaultCount) && cmd.duration == duration
    ensures !cmd.SingleFrame? && cmd.quality == req.quality.GetOr(DefaultQuality)
  {
    var quality := req.quality.GetOr(DefaultQuality);
    if req.interval.Some? && req.interval.value != 0.0 then EveryInterval(req.interval.value, quality)
    else EvenSpread(req.count.GetOr(DefaultCount), duration, quality)
  }

  /** The command `extractVideoFrames` runs. */
  function FramesCommand(req: FrameRequest, env: Tooling): FfmpegCommand {
    ChooseCommand(req, VideoDuration(env.probe))
  }

  /** The body of the `try` block of `extractVideoFrames`. */
  function FramesWork(req: FrameRequest, env: Tooling): (r: Result<seq<Bytes>, string>)
    ensures env.writeError.Some? ==> r == Err(env.writeError.value)
    ensures env.writeError.None? && env.run(FramesCommand(req, env)).Some? ==>
      r == Err(env.run(FramesCommand(req, env)).value)
    ensures env.writeError.None? && env.run(FramesCommand(req, env)).None? && env.listing.Err? ==>
      r == Err(env.listing.error)
    ensures env.writeError.None? && env.run(FramesCommand(req, env)).None? && env.listing.Ok? ==>
      var names := SelectFrameFiles(env.listing.value, req.count.GetOr(DefaultCount));
      (r.Ok? <==> forall k :: 0 <= k < |names| ==> env.readFile(names[k]).Ok?) &&
      (r.Ok? ==> |r.value| == |names| && forall k :: 0 <= k < |names| ==> env.readFile(names[k]) == Ok(r.value[k])) &&
      (r.Err? ==> (FirstUnreadable(names, env.readFile) < |names| &&
                   env.readFile(names[FirstUnreadable(names, env.readFile)]) == Err(r.error)))
  {
    if env.writeError.Some? then Err(env.writeError.value)
    else match env.run(FramesCommand(req, env))
      case Some(m) => Err(m)
      case None =>
        match env.listing
        case Err(m) => Err(m)
        case Ok(names) => ReadAll(SelectFrameFiles(names, req.count.GetOr(DefaultCount)), env.readFile)
  }

  /** `extractVideoFrames(buffer, options)`. The ffmpeg check comes first and
      its failure creates no directory; every other exit removes the directory
      it created; frames are the contents of the selected frame files, at most
      `count` of them; work errors carry the operation's prefix. */
  function ExtractVideoFrames(req: FrameRequest, env: Tooling, fs: TempFs): (run: Run<seq<Bytes>>)
    ensures !env.ffmpegInstalled ==> run == Run(Err(InstallMessage), fs)
    ensures Valid(fs) ==> Valid(run.fs)
    ensures Valid(fs) && (!env.ffmpegInstalled || env.dir.removeSucceeds) ==> run.fs.live == fs.live
    ensures run.result.Ok? <==>
      env.ffmpegInstalled && env.dir.mkdtempError.None? && env.writeError.None? &&
      env.run(FramesCommand(req, env)).None? && env.listing.Ok? &&
      var names := SelectFrameFiles(env.listing.value, req.count.GetOr(DefaultCount));
      forall k :: 0 <= k < |names| ==> env.readFile(names[k]).Ok?
    ensures run.result.Ok? ==> (env.listing.Ok? &&
      var names := SelectFrameFiles(env.listing.value, req.count.GetOr(DefaultCount));
      |run.result.value| == |names| &&
      forall k :: 0 <= k < |names| ==> env.readFile(names[k]) == Ok(run.result.value[k]))
    ensures env.ffmpegInstalled && env.dir.mkdtempError.Some? ==> run == Run(Err(env.dir.mkdtempError.value), fs)
    ensures env.ffmpegInstalled && env.dir.mkdtempError.None? && env.writeError.Some? ==>
      run.result == Err(FramesPrefix + env.writeError.value)
    ensures (env.ffmpegInstalled && env.dir.mkdtempError.None? && env.writeError.None? &&
             env.run(FramesCommand(req, env)).Some?) ==>
      run.result == Err(FramesPrefix + env.run(FramesCommand(req, env)).value)
    ensures (env.ffmpegInstalled && env.dir.mkdtempError.None? && env.writeError.None? &&
             env.run(FramesCommand(req, env)).None? && env.listing.Err?) ==>
      run.result == Err(FramesPrefix + env.listing.error)
    ensures (run.result.Err? && env.ffmpegInstalled && env.dir.mkdtempError.None? && env.writeError.None? &&
             env.run(FramesCommand(req, env)).None? && env.listing.Ok?) ==>
      var names := SelectFrameFiles(env.listing.value, req.count.GetOr(DefaultCount));
      FirstUnreadable(names, env.readFile) < |names| &&
      run.result == Err(FramesPrefix + env.readFile(names[FirstUnreadable(names, env.readFile)]).error)
    ensures run.result.Ok? && req.count.GetOr(DefaultCount) >= 0 ==> |run.result.value| <= req.count.GetOr(DefaultCount)
    ensures run.result.Err? && env.ffmpegInstalled && env.dir.mkdtempError.None? ==>
      StartsWith(run.result.error, FramesPrefix)
  {
    if !env.ffmpegInstalled then Run(Err(InstallMessage), fs)
    else
      var run := InTempDir(fs, env.dir, FramesWork(req, env), FramesPrefix);
      assert run.result.Err? && env.dir.mkdtempError.None? ==>
        run.result.error[..|FramesPrefix|] == FramesPrefix;
      run
  }

  /** `extractSingleFrame(buffer, timestamp, quality)`: same discipline, one
      ffmpeg run at `timestamp` and one read of `frame.jpg`. */
  function ExtractSingleFrame(at: nat, quality: int, env: Tooling, fs: TempFs): (run: Run<Bytes>)
    ensures !env.ffmpegInstalled ==> run == Run(Err(InstallMessage), fs)
    ensures Valid(fs) ==> Valid(run.fs)
    ensures Valid(fs) && (!env.ffmpegInstalled || env.dir.removeSucceeds) ==> run.fs.live == fs.live
    ensures run.result.Ok? <==>
      env.ffmpegInstalled && env.dir.mkdtempError.None? && env.writeError.None? &&
      env.run(SingleFrame(at, quality)).None? && env.readFile("frame.jpg").Ok?
    ensures run.result.Ok? ==> env.readFile("frame.jpg") == run.result
    ensures run.result.Err? && env.ffmpegInstalled && env.dir.mkdtempError.None? ==>
      StartsWith(run.result.error, SingleFramePrefix(at))
  {
    if !env.ffmpegInstalled then Run(Err(InstallMessage), fs)
    else
      var work: Result<Bytes, string> :=
        if env.writeError.Some? then Err(env.writeError.value)
        else match env.run(SingleFrame(at, quality))
          case Some(m) => Err(m)
          case None => env.readFile("frame.jpg");
      var run := InTempDir(fs, env.dir, work, SingleFramePrefix(at));
      assert run.result.Err? && env.dir.mkdtempError.None? ==>
        run.result.error[..|SingleFramePrefix(at)|] == SingleFramePrefix(at);
      run
  }

  /** `extractThumbnail(buffer, quality)`: the frame at second 0. It
      succeeds exactly when ffmpeg is there, the directory and input file are
      created, the frame-0 command runs and `frame.jpg` reads; the frame is
      that file's content. */
  function ExtractThumbnail(quality: int, env: Tooling, fs: TempFs): (run: Run<Bytes>)
    ensures !env.ffmpegInstalled ==> run == Run(Err(InstallMessage), fs)
    ensures run.result.Ok? <==>
      env.ffmpegInstalled && env.dir.mkdtempError.None? && env.writeError.None? &&
      env.run(SingleFrame(0, quality)).None? && env.readFile("frame.jpg").Ok?
    ensures run.result.Ok? ==> env.readFile("frame.jpg") == run.result
    ensures run.result.Err? && env.ffmpegInstalled && env.dir.mkdtempError.None? ==>
      StartsWith(run.result.error, SingleFramePrefix(0))
    ensures Valid(fs) && (!env.ffmpegInstalled || env.dir.removeSucceeds) ==> run.fs.live == fs.live
  {
    ExtractSingleFrame(0, quality, env, fs)
  }

  /** The thumbnail probes no duration and lists no directory: the probe
      result, the listing and every other ffmpeg command are irrelevant. */
  lemma ThumbnailNeedsOnlyFrameZero(quality: int, env: Tooling, env': Tooling, fs: TempFs)
    requires env'.ffmpegInstalled == env.ffmpegInstalled && env'.dir == env.dir && env'.writeError == env.writeError
    requires env'.run(SingleFrame(0, quality)) == env.run(SingleFrame(0, quality))
    requires env'.readFile("frame.jpg") == env.readFile("frame.jpg")
    ensures ExtractThumbnail(quality, env', fs) == ExtractThumbnail(quality, env, fs)
  {
  }

  /** `extractHookFrames(buffer)`: five frames at quality 2. */
  function ExtractHookFrames(env: Tooling, fs: TempFs): (run: Run<seq<Bytes>>)
    ensures run == ExtractVideoFrames(FrameRequest(Some(5), None, Some(2)), env, fs)
    ensures run.result.Ok? ==> |run.result.value| <= 5
  {
    ExtractVideoFrames(FrameRequest(Some(5), None, Some(2)), env, fs)
  }

  // ---------------------------------------------------------------- metadata

  /** The fields `getVideoMetadata` reads from ffprobe's JSON; the frame rate
      arrives already divided out of `r_frame_rate`. */
  datatype ProbeReport = ProbeReport(
    duration: Option<real>, width: Option<int>, height: Option<int>, fps: Option<real>, codec: Option<string>)

  datatype VideoMetadata = VideoMetadata(duration: real, width: int, height: int, fps: real, codec: string)

  /** What `getVideoMetadata` meets: the directory, the write, and ffprobe's
      report (an error when the command, the JSON or the stream lookup throws). */
  datatype MetadataTooling = MetadataTooling(dir: DirOracle, writeError: Option<string>, report: Result<ProbeReport, string>)

  /** `x || fallback` for an optional real. */
  function RealOr(x: Option<real>, fallback: real): real {
    if x.Some? && x.value != 0.0 then x.value else fallback
  }

  /** `getVideoMetadata(buffer)`: no ffmpeg check; zero (or `unknown`) for
      missing fields and 30 for a missing frame rate; the same cleanup. */
  function GetVideoMetadata(env: MetadataTooling, fs: TempFs): (run: Run<VideoMetadata>)
    ensures Valid(fs) ==> Valid(run.fs)
    ensures Valid(fs) && env.dir.removeSucceeds ==> run.fs.live == fs.live
    ensures run.result.Ok? <==> env.dir.mkdtempError.None? && env.writeError.None? && env.report.Ok?
    ensures env.dir.mkdtempError.Some? ==> run == Run(Err(env.dir.mkdtempError.value), fs)
    ensures env.dir.mkdtempError.None? && env.writeError.Some? ==> run.result == Err(MetadataPrefix + env.writeError.value)
    ensures env.dir.mkdtempError.None? && env.writeError.None? && env.report.Err? ==>
      run.result == Err(MetadataPrefix + env.report.error)
    ensures run.result.Ok? ==> env.report.Ok? && run.result.value.codec != "" && run.result.value.fps != 0.0
    ensures run.result.Ok? ==>
      var p, v := env.report.value, run.result.value;
      v.duration == (if p.duration.Some? then p.duration.value else 0.0) &&
      v.width == (if p.width.Some? then p.width.value else 0) &&
      v.height == (if p.height.Some? then p.height.value else 0) &&
      v.fps == (if p.fps.Some? && p.fps.value != 0.0 then p.fps.value else 30.0) &&
      v.codec == (if p.codec.Some? && p.codec.value != "" then p.codec.value else "unknown")
    ensures run.result.Ok? && env.report.value.fps.Some? && env.report.value.fps.value != 0.0 ==>
      run.result.value.fps == env.report.value.fps.value
    ensures run.result.Err? && env.dir.mkdtempError.None? ==> StartsWith(run.result.error, MetadataPrefix)
  {
    var work: Result<VideoMetadata, string> :=
      if env.writeError.Some? then Err(env.writeError.value)
      else match env.report
        case Err(m) => Err(m)
        case Ok(p) => Ok(VideoMetadata(
          RealOr(p.duration, 0.0),
          NumOrElse(p.width, 0),
          NumOrElse(p.height, 0),
          RealOr(p.fps, 30.0),
          OrElse(p.codec, "unknown")));
    var run := InTempDir(fs, env.dir, work, MetadataPrefix);
    assert run.result.Err? && env.dir.mkdtempError.None? ==>
      run.result.error[..|MetadataPrefix|] == MetadataPrefix;
    run
  }

  // ---------------------------------------------------------------- lemmas

  /** A failed `fs.rm` is swallowed: it changes the directory state only, never
      the frames or the error the caller sees. */
  lemma CleanupFailureInvisible(req: FrameRequest, env: Tooling, fs: TempFs, removeSucceeds: bool)
    ensures ExtractVideoFrames(req, env, fs).result ==
            ExtractVideoFrames(req, env.(dir := env.dir.(removeSucceeds := removeSucceeds)), fs).result
  {
  }

  /** When ffprobe fails and no interval is asked for, frames are spread over
      30 seconds. */
  lemma ProbeFailureAssumesThirtySeconds(req: FrameRequest, env: Tooling)
    requires env.probe.None?
    requires req.interval.None? || req.interval.value == 0.0
    ensures FramesCommand(req, env) == EvenSpread(req.count.GetOr(DefaultCount), 30.0, req.quality.GetOr(DefaultQuality))
  {
  }
}
