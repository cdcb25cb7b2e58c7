/**
 * The upload-preparation decision of resolve_assistant/transcode.py: whether a video must be
 * re-encoded before upload, and which file is uploaded.
 */
module Transcode {
  import opened Wrappers
  import Config
  import PurePath

  /**
   * What the probes report about a video: its size in bytes, its codec name and its frame
   * width and height, each `None` when ffprobe cannot tell.
   */
  datatype Probe = Probe(sizeBytes: nat, codec: Option<string>, width: Option<int>, height: Option<int>)

  /** The checks of `_needs_transcode`, in the order in which they run. */
  datatype Check = SizeCheck | CodecCheck | ResolutionCheck

  function Max(a: int, b: int): int {
    if a >= b then a else b
  }

  /** `_needs_transcode`: the chain of early returns. */
  predicate NeedsTranscode(p: Probe) {
    if p.sizeBytes > Config.GeminiMaxBytes then true
    else if p.codec.None? then true
    else if p.codec.value !in Config.SafeCodecs then true
    else if p.width.Some? && p.height.Some? then Max(p.width.value, p.height.value) > Config.GeminiMaxLongEdge
    else false
  }

  /** The checks that run before `_needs_transcode` returns; a later probe is never called once an earlier one decides. */
  function ChecksRun(p: Probe): (r: seq<Check>)
    ensures r != [] && r[0] == SizeCheck
    ensures r <= [SizeCheck, CodecCheck, ResolutionCheck]
  {
    if p.sizeBytes > Config.GeminiMaxBytes then [SizeCheck]
    else if p.codec.None? || p.codec.value !in Config.SafeCodecs then [SizeCheck, CodecCheck]
    else [SizeCheck, CodecCheck, ResolutionCheck]
  }

  /** `p` and `q` report the same values for the checks in `checks`. */
  predicate AgreeOn(p: Probe, q: Probe, checks: seq<Check>) {
    && p.sizeBytes == q.sizeBytes
    && (CodecCheck in checks ==> p.codec == q.codec)
    && (ResolutionCheck in checks ==> p.width == q.width && p.height == q.height)
  }

  /**
   * The decision reads nothing beyond the checks that ran: size first, the codec only when
   * the size passed, the resolution only when the codec passed.
   */
  lemma DecisionReadsOnlyChecksRun(p: Probe, q: Probe)
    requires AgreeOn(p, q, ChecksRun(p))
    ensures ChecksRun(q) == ChecksRun(p)
    ensures NeedsTranscode(q) == NeedsTranscode(p)
  {
  }

  /** The predicate is false exactly when none of its four conditions holds. */
  lemma NeedsTranscodeExactly(p: Probe)
    ensures !NeedsTranscode(p) <==>
      && p.sizeBytes <= Config.GeminiMaxBytes
      && p.codec.Some?
      && p.codec.value in Config.SafeCodecs
      && !(p.width.Some? && p.height.Some? && Max(p.width.value, p.height.value) > Config.GeminiMaxLongEdge)
  {
  }

  /** A file over 2 GiB needs transcoding whatever its codec and size; a file of exactly 2 GiB is not forced. */
  lemma SizeBoundary(codec: Option<string>, width: Option<int>, height: Option<int>)
    ensures NeedsTranscode(Probe(Config.GeminiMaxBytes + 1, codec, width, height))
    ensures !NeedsTranscode(Probe(Config.GeminiMaxBytes, Some("h264"), Some(1280), Some(720)))
  {
  }

  /** An unknown or unsafe codec forces transcoding of a file within the size limit. */
  lemma CodecForces(size: nat, codec: Option<string>, width: Option<int>, height: Option<int>)
    requires codec.None? || codec.value !in Config.SafeCodecs
    ensures NeedsTranscode(Probe(size, codec, width, height))
  {
  }

  /** Unknown dimensions never force transcoding; a long edge of exactly 1280 does not either. */
  lemma UnknownDimensionsNeverForce(size: nat, codec: string, width: Option<int>, height: Option<int>)
    requires size <= Config.GeminiMaxBytes && codec in Config.SafeCodecs
    requires width.None? || height.None?
    ensures !NeedsTranscode(Probe(size, Some(codec), width, height))
    ensures !NeedsTranscode(Probe(size, Some(codec), Some(720), Some(1280)))
    ensures NeedsTranscode(Probe(size, Some(codec), Some(1281), Some(720)))
  {
  }

  // ---------------------------------------------------------------------------
  // prepare_for_gemini
  // ---------------------------------------------------------------------------

  /** What running the encoder did. */
  datatype Encoder =
    | EncoderMissing                   // the executable is not installed
    | EncoderFailed(stderr: string)    // it exited with a non-zero status
    | EncoderRaised(message: string)   // any other exception, such as the one-hour timeout
    | EncoderDone(outputBytes: nat)    // it succeeded; the size of the file it wrote

  /** How the uploadable file was obtained. */
  datatype Route = AsIs | CacheHit | Encoded(oversize: bool)

  datatype Prepared = Prepared(path: string, route: Route)

  /** The facts `prepare_for_gemini` learns from outside: the probes, the cache file, the encoder. */
  datatype Environment = Environment(probe: Probe, cacheExists: bool, encoder: Encoder)

  const EncoderPath: string := "/usr/bin/avconvert"

  const EncoderMissingMessage: string :=
    "avconvert not found at /usr/bin/avconvert. Requires macOS 13+ with Xcode command-line tools."

  /** The cached encoding of `video`: its final suffix replaced by `.gemini.mp4`. */
  function CachePath(video: string): Option<string> {
    PurePath.WithSuffix(video, ".gemini.mp4")
  }

  function Truncate(s: string, n: nat): (r: string)
    ensures |r| <= n && r <= s
  {
    if |s| <= n then s else s[..n]
  }

  function EncoderFailedMessage(video: string, stderr: string): string {
    "avconvert failed for " + PurePath.Name(video) + ": " + Truncate(stderr, 500)
  }

  /** The `ValueError` of `with_suffix` for a path with an empty name. */
  function EmptyNameMessage(video: string): string {
    "PosixPath('" + video + "') has an empty name"
  }

  /** `prepare_for_gemini`: the file to upload, or the text of the error it raises. */
  function PrepareForGemini(video: string, env: Environment): (r: Result<Prepared>)
    ensures r.Ok? && r.value.route == AsIs <==> !NeedsTranscode(env.probe)
    ensures !NeedsTranscode(env.probe) ==> r == Ok(Prepared(video, AsIs))
    ensures r.Ok? && r.value.route != AsIs ==> CachePath(video) == Some(r.value.path)
    ensures r.Ok? && r.value.route == CacheHit <==> NeedsTranscode(env.probe) && CachePath(video).Some? && env.cacheExists
    ensures r.Err? ==> NeedsTranscode(env.probe) && (CachePath(video).None? || !env.cacheExists)
  {
    if !NeedsTranscode(env.probe) then Ok(Prepared(video, AsIs))
    else
      match CachePath(video)
      case None => Err(EmptyNameMessage(video))
      case Some(cache) =>
        if env.cacheExists then Ok(Prepared(cache, CacheHit))
        else
          match env.encoder
          case EncoderMissing => Err(EncoderMissingMessage)
          case EncoderFailed(stderr) => Err(EncoderFailedMessage(video, stderr))
          case EncoderRaised(message) => Err(message)
          case EncoderDone(outputBytes) => Ok(Prepared(cache, Encoded(outputBytes > Config.GeminiMaxBytes)))
  }

  /** The cache file sits beside the source, named after its stem, and is never the source itself. */
  lemma CachePathShape(video: string)
    requires PurePath.Name(video) != []
    ensures CachePath(video).Some?
    ensures PurePath.Dir(CachePath(video).value) == PurePath.Dir(video)
    ensures PurePath.Name(CachePath(video).value) == PurePath.Stem(PurePath.Name(video)) + ".gemini.mp4"
    ensures CachePath(video).value != video
  {
    PurePath.WithSuffixShape(video, ".gemini.mp4");
  }

  /** When an encoding is needed and the cache file exists, the encoder's behaviour is irrelevant. */
  lemma CacheHitSkipsEncoder(video: string, probe: Probe, e1: Encoder, e2: Encoder)
    requires NeedsTranscode(probe) && PurePath.Name(video) != []
    ensures PrepareForGemini(video, Environment(probe, true, e1)) == PrepareForGemini(video, Environment(probe, true, e2))
    ensures PrepareForGemini(video, Environment(probe, true, e1)) == Ok(Prepared(CachePath(video).value, CacheHit))
  {
  }

  /** Without the encoder there is nothing to upload: an error. */
  lemma EncoderMissingFails(video: string, probe: Probe)
    requires NeedsTranscode(probe) && PurePath.Name(video) != []
    ensures PrepareForGemini(video, Environment(probe, false, EncoderMissing)) == Err(EncoderMissingMessage)
  {
    assert CachePath(video).Some?;
  }

  /** A run that exits non-zero is an error carrying the encoder's standard error. */
  lemma EncoderFailureFails(video: string, probe: Probe, stderr: string)
    requires NeedsTranscode(probe) && PurePath.Name(video) != []
    ensures PrepareForGemini(video, Environment(probe, false, EncoderFailed(stderr))) == Err(EncoderFailedMessage(video, stderr))
  {
    assert CachePath(video).Some?;
  }

  /** A finished run returns the cache path; an output still over the limit only warns. */
  lemma EncodedOutput(video: string, probe: Probe, outputBytes: nat)
    requires NeedsTranscode(probe) && PurePath.Name(video) != []
    ensures PrepareForGemini(video, Environment(probe, false, EncoderDone(outputBytes)))
         == Ok(Prepared(CachePath(video).value, Encoded(outputBytes > Config.GeminiMaxBytes)))
  {
    assert CachePath(video).Some?;
  }

  /** The error text keeps at most 500 characters of the encoder's standard error. */
  lemma FailureMessageBounded(video: string, stderr: string)
    ensures |EncoderFailedMessage(video, stderr)| <= |"avconvert failed for "| + |PurePath.Name(video)| + 2 + 500
  {
  }
}
