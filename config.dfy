/** The media constants of resolve_assistant/config.py. */
module Config {

  /** The analysis model name stamped into every sidecar. */
  const Model: string := "gemini-3-flash-preview"

  /** File extensions listed as video. */
  const VideoExts: set<string> := {".mp4", ".mov", ".mxf", ".avi", ".webm", ".mkv", ".r3d", ".braw"}

  /** File extensions listed as audio. */
  const AudioExts: set<string> := {".mp3", ".wav", ".aac", ".flac", ".ogg", ".m4a"}

  /** Upload ceiling of the Files API: 2 GiB. */
  const GeminiMaxBytes: nat := 2 * 1024 * 1024 * 1024

  /** Codec names that can be uploaded without re-encoding. */
  const SafeCodecs: set<string> := {"h264", "avc", "avc1", "hevc", "h265", "hev1"}

  /** Longest frame edge, in pixels, that is uploaded without re-encoding. */
  const GeminiMaxLongEdge: nat := 1280

  /** No extension is both a video and an audio extension. */
  lemma ExtensionSetsDisjoint()
    ensures VideoExts !! AudioExts
  {
  }
}
