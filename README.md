# resolve-assistant ingest and key-moments core, in Dafny

This project models three files of resolve-assistant, a DaVinci Resolve helper that sends footage to Gemini for analysis.

- **Key moments** (`resolve_assistant/key_moments.py`). Every valid segment of every video sidecar becomes a one-clip cut on track 1. The cuts are sorted by `(source_file, start_sec)`. The model also covers:
  - how the comma-separated clip filter is parsed;
  - the file-safe timeline name;
  - the clip count reported back to the user.
- **Transcode** (`resolve_assistant/transcode.py`). This part decides whether a video must be re-encoded before upload (size, codec, resolution, in that order). It then chooses among three outcomes:
  - the file as it is;
  - a cached `.gemini.mp4` proxy;
  - a fresh encode or an error.
- **Ingest worker** (`resolve_assistant/ingest_worker.py`). Phase 1 folds the parallel transcodes, in the order they finish, into a proxy map and an error list. Phase 2 is the sequential loop. For each pending file it:
  - uploads the proxy or the original;
  - analyses the upload;
  - stamps the record and writes it as the `<media>.json` sidecar.

  Every write of the progress file is kept as a snapshot in a log. This makes the counters, the error list and the final `complete` record statements about that log.

The media constants of `resolve_assistant/config.py` are in module `Config`.

## Modules

- `Wrappers`: `Option` and `Result`.
- `Config`: the constants.
- `Text`: the `str` operations the source uses:
  - `strip`, `split`, `join`;
  - `replace` of one character;
  - ASCII `lower`.
- `PurePath`: the `pathlib` operations on POSIX paths:
  - `name`, `suffix`, `stem`;
  - `with_suffix`.
- `Transcode`: `_needs_transcode` and `prepare_for_gemini`.
- `KeyMoments`: the edit plan and the tool's filter, name and count computations.
- `IngestWorker`: the data of the worker, its spec functions, and the class `IngestRun` that holds the error list, the progress log and the folder's sidecars and updates them in place.

Probes, the file system, the encoder and the Gemini calls are inputs. For example:

- `Transcode.Environment` says what the probes report, whether the cache file exists and how `avconvert` ends.
- `IngestWorker.FileOutcome` says how the upload settled, what the analysis returned and what the probes measured.

## Model

| member | source | states |
|---|---|---|
| KeyMoments.SegmentsToEditPlan | resolve_assistant/key_moments.py:19-64 | The plan keeps the timeline name. Its cuts are the collected cuts reordered: a permutation that is sorted by `(source_file, start_sec)`. Every cut is on track 1 and has start < end. The number of cuts equals the number of valid segments in the included sidecars. |
| KeyMoments.AppendSidecarCuts | resolve_assistant/key_moments.py:34-56 | One iteration of the outer loop appends exactly the cuts of that sidecar: none when it is audio or filtered out, else one per valid segment. |
| KeyMoments.AppendSegmentCuts | resolve_assistant/key_moments.py:45-56 | The inner loop appends one cut per segment with end > start, in segment order, each tagged with the sidecar's file path. |
| KeyMoments.SegmentCuts | resolve_assistant/key_moments.py:45-56 | A sidecar yields at most one cut per segment. Each cut is on track 1, names that sidecar's file and has start < end. |
| KeyMoments.SegmentCutsMembership | resolve_assistant/key_moments.py:45-56 | A cut is produced for a file exactly when some segment has end > start and carries that cut's times. |
| KeyMoments.CollectedMembership | resolve_assistant/key_moments.py:34-56 | A cut is collected iff some sidecar that is not audio and passes the filter has a valid segment yielding it (both directions). |
| KeyMoments.CollectedCount | resolve_assistant/key_moments.py:45-56 | The number of collected cuts equals the number of valid segments of the included sidecars. |
| KeyMoments.SegmentCutsCount | resolve_assistant/key_moments.py:45-49 | A sidecar contributes exactly as many cuts as it has segments with end > start. |
| KeyMoments.CollectedWellFormed | resolve_assistant/key_moments.py:48-56 | Every collected cut has track 1 and start < end. |
| KeyMoments.CollectAppend | resolve_assistant/key_moments.py:34 | Collection distributes over concatenation of the sidecar list: sidecars are handled independently, in order. |
| KeyMoments.AudioSidecarAddsNothing | resolve_assistant/key_moments.py:35-37 | A sidecar whose media type is `audio` or starts with `audio/` can be removed without changing the cuts. |
| KeyMoments.FilteredSidecarAddsNothing | resolve_assistant/key_moments.py:40-43 | Under a non-empty filter, a sidecar whose stem is not listed can be removed without changing the cuts. |
| KeyMoments.ExcludedSidecarAddsNothing | resolve_assistant/key_moments.py:34-43 | Any sidecar the loop skips can be removed without changing the cuts. |
| KeyMoments.NoFilterSameAsEmptyFilter | resolve_assistant/key_moments.py:42 | An absent filter and an empty filter list collect the same cuts: the filter applies only when present and non-empty. |
| KeyMoments.CollectCuts | resolve_assistant/key_moments.py:32-56 | The cuts of the two loops before the sort: the cuts of each sidecar in visiting order (a definition; its properties are the membership, count and well-formedness lemmas). |
| KeyMoments.SortedPlanFacts | resolve_assistant/key_moments.py:59 | After the sort the cuts are still well formed, are sorted by key, and are as many as the valid segments. |
| KeyMoments.Insert | resolve_assistant/key_moments.py:59 | Inserting a cut adds exactly that cut to the multiset of cuts. |
| KeyMoments.SortCuts | resolve_assistant/key_moments.py:59 | The sort is a permutation of its input. |
| KeyMoments.InsertSorted | resolve_assistant/key_moments.py:59 | Inserting into a key-sorted list keeps it key-sorted. |
| KeyMoments.SortCutsSorted | resolve_assistant/key_moments.py:59 | The sorted list is ordered by `(source_file, start_sec)` under Python's tuple and string comparison. |
| KeyMoments.InsertStable | resolve_assistant/key_moments.py:59 | Insertion keeps the relative order of cuts with equal keys. |
| KeyMoments.SortCutsStable | resolve_assistant/key_moments.py:59 | The sort is stable: the cuts with any given key appear in the same order as before sorting. |
| KeyMoments.StrLessIrreflexive | resolve_assistant/key_moments.py:59 | String `<` is irreflexive. |
| KeyMoments.StrLessTransitive | resolve_assistant/key_moments.py:59 | String `<` is transitive. |
| KeyMoments.StrLessTotal | resolve_assistant/key_moments.py:59 | Any two distinct strings are ordered one way or the other. |
| KeyMoments.KeyLeqTransitive | resolve_assistant/key_moments.py:59 | The sort key order is transitive. |
| KeyMoments.KeyLeqTotal | resolve_assistant/key_moments.py:59 | The sort key order is total. |
| KeyMoments.KeepNonBlank | resolve_assistant/key_moments.py:91 | The kept entries are no more than the parts, and each is non-empty with no surrounding whitespace. |
| KeyMoments.KeepNonBlankMembers | resolve_assistant/key_moments.py:91 | A text is kept iff it is non-empty and is the stripped form of some part. |
| KeyMoments.KeepNonBlankAppend | resolve_assistant/key_moments.py:91 | The parts are handled one at a time, left to right: keeping from a concatenation concatenates the results. |
| KeyMoments.KeepNonBlankSingle | resolve_assistant/key_moments.py:91 | One part gives its stripped text, or nothing when that is empty. With the concatenation lemma this fixes the result for every input. |
| KeyMoments.ParseClipFilter | resolve_assistant/key_moments.py:90-93 | The filter is None exactly when the argument is the empty string. |
| KeyMoments.ParsedEntriesClean | resolve_assistant/key_moments.py:90-93 | Every parsed entry is non-empty, has no surrounding whitespace and contains no comma. |
| KeyMoments.ParseJoinedFilter | resolve_assistant/key_moments.py:90-93 | Joining clean entries with commas and parsing the result gives the entries back. |
| KeyMoments.ParseDocumentedExample | resolve_assistant/key_moments.py:79-80 | The docstring's example `DSC_4293,DSC_4294` parses to the two stems. |
| KeyMoments.KeepNonBlankOfClean | resolve_assistant/key_moments.py:91 | Entries that are already clean all pass the `if s.strip()` guard unchanged. |
| KeyMoments.SafeName | resolve_assistant/key_moments.py:118 | The safe name contains no `:`, `/` or `\`. Every other character of the name survives, and only ` ` and `-` are added. |
| KeyMoments.SafeNameFixedPoint | resolve_assistant/key_moments.py:118 | The name is left unchanged iff it contains none of `:`, `/` and `\`. |
| KeyMoments.SafeNameIdempotent | resolve_assistant/key_moments.py:118 | Making a name safe twice gives the same result as once. |
| KeyMoments.NClips | resolve_assistant/key_moments.py:122-125 | The clip count never exceeds the number of sidecars. |
| KeyMoments.NClipsBounds | resolve_assistant/key_moments.py:122-125 | The count equals the number of sidecars iff no media type starts with `audio`. It never exceeds the number of sidecars the plan treats as video. |
| KeyMoments.NClipsStricterThanPlan | resolve_assistant/key_moments.py:36 | The two audio tests differ: a sidecar typed `audiovisual` is left out of the count but still yields cuts in the plan. |
| Transcode.NeedsTranscodeExactly | resolve_assistant/transcode.py:17-30 | No transcode is needed iff all of these hold: the size is at most 2 GiB, the codec is known and safe, and the dimensions are not both known with a long edge over 1280. |
| Transcode.NeedsTranscode | resolve_assistant/transcode.py:17-30 | `_needs_transcode` as its chain of early returns (a definition; `NeedsTranscodeExactly` states its meaning). |
| Transcode.ChecksRun | resolve_assistant/transcode.py:19-29 | The size check always runs first. The checks that run are a prefix of size, codec, resolution. |
| Transcode.DecisionReadsOnlyChecksRun | resolve_assistant/transcode.py:19-29 | Two probes that agree on the checks that ran get the same decision and run the same checks: a later probe never matters once an earlier check has decided. |
| Transcode.SizeBoundary | resolve_assistant/transcode.py:19-20 | One byte over 2 GiB forces a transcode whatever the codec. Exactly 2 GiB with h264 at 1280x720 does not. |
| Transcode.CodecForces | resolve_assistant/transcode.py:21-25 | A missing codec, or one outside the safe set, forces a transcode. |
| Transcode.UnknownDimensionsNeverForce | resolve_assistant/transcode.py:26-29 | When a width or height is unknown the resolution never forces a transcode. The long edge is compared in either orientation. |
| Transcode.PrepareForGemini | resolve_assistant/transcode.py:33-75 | The file is returned as it is iff no transcode is needed, and then the result is the video's own path. Every other success path is the `.gemini.mp4` cache path. The cache is returned iff a transcode is needed and the cache exists. Errors arise only when a transcode is needed and there is no cache. |
| Transcode.CachePathShape | resolve_assistant/transcode.py:42 | The cache file sits in the same directory, is named stem + `.gemini.mp4`, and differs from the source. |
| Transcode.CacheHitSkipsEncoder | resolve_assistant/transcode.py:42-44 | With an existing cache the result is that cache, whatever the encoder would have done. |
| Transcode.EncoderMissingFails | resolve_assistant/transcode.py:56-62 | When `avconvert` is not found, the error is the fixed "not found" message. |
| Transcode.EncoderFailureFails | resolve_assistant/transcode.py:63-66 | When `avconvert` exits non-zero, the error names the file and carries the first 500 characters of stderr. |
| Transcode.FailureMessageBounded | resolve_assistant/transcode.py:65 | The failure message is never longer than its fixed parts plus the file name plus 500 characters. |
| Transcode.EncodedOutput | resolve_assistant/transcode.py:68-75 | After a successful encode the cache path is returned. An output over 2 GiB is only flagged as a warning, never an error. |
| Transcode.Truncate | resolve_assistant/transcode.py:65 | `s[:n]` is a prefix of `s` of length at most `n`. |
| PurePath.WithSuffix | resolve_assistant/transcode.py:42 | `with_suffix` fails exactly when the path has an empty name. |
| PurePath.WithSuffixShape | resolve_assistant/transcode.py:42 | `with_suffix` keeps the directory and renames the file to stem + suffix. |
| PurePath.WithExtendedSuffix | resolve_assistant/ingest_worker.py:121 | `with_suffix(suffix + ".json")` is the media path with `.json` appended. |
| PurePath.NameShape | resolve_assistant/key_moments.py:40 | A name has no `/`, and directory + name is the whole path. |
| PurePath.Stem | resolve_assistant/key_moments.py:40 | Stem followed by suffix is the name, and a non-empty name has a non-empty stem. |
| PurePath.Suffix | resolve_assistant/ingest_worker.py:122 | The suffix ends the name. It is either empty or a dot followed by at least one character and no further dot, and is shorter than the name. |
| Text.Strip | resolve_assistant/key_moments.py:91 | The result has no whitespace at either end and is no longer than the input. |
| Text.StripSlice | resolve_assistant/key_moments.py:91 | The stripped text is a slice of the input bordered only by whitespace. |
| Text.Split | resolve_assistant/key_moments.py:91 | Splitting yields at least one part, and no part contains the separator. |
| Text.JoinSplit | resolve_assistant/key_moments.py:91 | Joining the parts of a split gives back the original text. |
| Text.SplitJoin | resolve_assistant/key_moments.py:91 | Splitting a join of separator-free parts gives back the parts. |
| Text.ReplaceChar | resolve_assistant/key_moments.py:118 | After replacing a character it no longer occurs (if the replacement lacks it). Every other character of the input still occurs, and nothing outside the input and the replacement appears. |
| Text.Lower | resolve_assistant/ingest_worker.py:122 | Lowering keeps the length and maps each character on its own. |
| Config.ExtensionSetsDisjoint | resolve_assistant/config.py:58-59 | No extension is both a video and an audio extension. |
| IngestWorker.TranscodeOne | resolve_assistant/ingest_worker.py:52-58 | The result keeps the original and carries exactly one of proxy and error. The error is absent iff `prepare_for_gemini` succeeds. A proxy is the original or its cache path. |
| IngestWorker.Finished | resolve_assistant/ingest_worker.py:67-72 | The k-th finished result is the transcode of the video at the k-th position of the completion order. |
| IngestWorker.IngestRun.BatchTranscode | resolve_assistant/ingest_worker.py:61-90 | The returned map is the fold of the results in completion order. The new state is the fold's state: one progress write per result, and errors appended for failures. |
| IngestWorker.BatchState | resolve_assistant/ingest_worker.py:67-88 | The transcode phase leaves sidecars and uploads alone. It appends one snapshot per result and keeps the earlier log. |
| IngestWorker.BatchErrors | resolve_assistant/ingest_worker.py:75-77 | The error list grows by exactly the error lines of the failed transcodes, in completion order. |
| IngestWorker.TranscodeErrorsMembers | resolve_assistant/ingest_worker.py:75-77 | A line is among the transcode errors iff some result failed with it. |
| IngestWorker.BatchLog | resolve_assistant/ingest_worker.py:81-88 | The k-th snapshot of the phase reads `transcoding (k+1/n)`, step transcoding, and the errors as they stood after k+1 results. |
| IngestWorker.Proxies | resolve_assistant/ingest_worker.py:65-79 | The proxy map folded from the results in completion order (a definition; its keys and values are stated by `ProxyKeys`, `ProxyValues` and `ProxiesFromSources`). |
| IngestWorker.ProxyKeys | resolve_assistant/ingest_worker.py:75-79 | A name is in the proxy map iff some result without an error and with a proxy has that file name. |
| IngestWorker.ProxyValues | resolve_assistant/ingest_worker.py:75-79 | When the names are distinct, a stored result is found under its name with its proxy, and a failed one is absent. |
| IngestWorker.ProxiesFromSources | resolve_assistant/ingest_worker.py:75-79 | Every proxy in the map is the original of a video of that name or that video's cache path. |
| IngestWorker.SidecarPath | resolve_assistant/ingest_worker.py:121 | The sidecar path is the media path with `.json` appended. |
| IngestWorker.IsAudio | resolve_assistant/ingest_worker.py:122 | The lowered suffix of the file name is an audio extension (a definition; `AudioClassification` states its consequences). |
| IngestWorker.AudioClassification | resolve_assistant/ingest_worker.py:122 | Only files with a suffix are audio, and a video extension is never audio. |
| IngestWorker.UploadPath | resolve_assistant/ingest_worker.py:131-134 | Audio uploads the original. A video uploads its proxy when the map has its name, otherwise the original. |
| IngestWorker.UploadFollowsTranscode | resolve_assistant/ingest_worker.py:52-134 | For pending videos with distinct names, in any completion order: a video uploads the file `prepare_for_gemini` returned for it (itself, its cache hit or its fresh encode). It uploads itself when that call raised or the file is audio. |
| IngestWorker.ErrorEntry | resolve_assistant/ingest_worker.py:142 | An error line starts with the file's name and is longer than it. |
| IngestWorker.FailureEntry | resolve_assistant/ingest_worker.py:186-187 | A failing file's error line starts with its name. |
| IngestWorker.InactiveUploadSkips | resolve_assistant/ingest_worker.py:141-143 | An upload that does not settle ACTIVE appends `name: upload state=STATE`. It writes only the uploading snapshot and no sidecar. |
| IngestWorker.FileStep | resolve_assistant/ingest_worker.py:120-187 | One iteration of the per-file loop on the run state (a definition; its effect is stated by `FileStepClosedForm`, `FileStepEffect` and `FileStepProgress`). |
| IngestWorker.FileStepClosedForm | resolve_assistant/ingest_worker.py:120-187 | The effect of one file is either its sidecar is written and the errors are unchanged, or no sidecar is written and one error line is appended. Either way the upload is recorded and its snapshots are logged. |
| IngestWorker.FileStepEffect | resolve_assistant/ingest_worker.py:130-187 | Success writes the stamped record at `<media>.json` and adds no error. Any failure writes no sidecar and appends one line starting with the file's name. |
| IngestWorker.FileStepProgress | resolve_assistant/ingest_worker.py:124-149 | Each file appends snapshots beginning with `uploading`. All are running, name the file, count `already_done + i` and hold the errors from before the file. |
| IngestWorker.FileStepErrors | resolve_assistant/ingest_worker.py:141-187 | A file adds no error on success and exactly its failure line otherwise. |
| IngestWorker.PendingFileProgress | resolve_assistant/ingest_worker.py:120-128 | The i-th pending file's snapshots report `completed = already_done + i` and its name. |
| IngestWorker.Finalise | resolve_assistant/ingest_worker.py:171-182 | The sidecar record: the analysis stamped, then probed for video (a definition; `FinaliseKeys`, `FinaliseStamps`, `FinaliseProbes` and `FinaliseKeepsAnalysis` state its content). |
| IngestWorker.KeyNameInjective | resolve_assistant/ingest_worker.py:171-174 | Canonical keys with the same JSON spelling are the same key, so a canonical record behaves like a dict keyed by spelling. |
| IngestWorker.FinaliseCanonical | resolve_assistant/ingest_worker.py:171-182 | Stamping and probing a canonical analysis gives a canonical sidecar: no key is held under two spellings. |
| IngestWorker.FileStepCanonical | resolve_assistant/ingest_worker.py:171-184 | One file keeps every sidecar canonical when its analysis record is. |
| IngestWorker.StepsCanonical | resolve_assistant/ingest_worker.py:120-187 | The per-file loop writes only canonical sidecars. |
| IngestWorker.IngestCanonical | resolve_assistant/ingest_worker.py:93-193 | A run that starts from canonical sidecars ends with canonical sidecars. |
| IngestWorker.WithProbesKeeps | resolve_assistant/ingest_worker.py:176-182 | The probe step touches no key but `fps` and `duration`. |
| IngestWorker.FinaliseKeys | resolve_assistant/ingest_worker.py:171-182 | The sidecar's keys are the analysis keys plus the three stamped keys, plus `fps` and `duration` for video when the probe value is non-zero. |
| IngestWorker.FinaliseStamps | resolve_assistant/ingest_worker.py:172-174 | `file_path`, `filename` and `analysis_model` are always overwritten with the path, the name and the model. |
| IngestWorker.FinaliseProbes | resolve_assistant/ingest_worker.py:176-182 | For video, a non-zero probed fps or duration overwrites the analysis value. |
| IngestWorker.FinaliseKeepsAnalysis | resolve_assistant/ingest_worker.py:171-182 | Any other analysis key keeps its value, as do `fps` and `duration` for audio or when the probe gives nothing. |
| IngestWorker.IngestRun.ProcessFile | resolve_assistant/ingest_worker.py:120-187 | One loop iteration changes the state exactly as the spec function of one file does. |
| IngestWorker.IngestRun.AnalyseFile | resolve_assistant/ingest_worker.py:145-187 | After an active upload: the analysing snapshot, then an error line or the stored sidecar. |
| IngestWorker.IngestRun.RecordError | resolve_assistant/ingest_worker.py:186-187 | An exception appends `name: message` and changes nothing else. |
| IngestWorker.IngestRun.StoreSidecar | resolve_assistant/ingest_worker.py:184 | The finalised record is written at the sidecar path and nothing else changes. |
| IngestWorker.IngestRun.WriteProgress | resolve_assistant/ingest_worker.py:38-39 | Each progress write appends a snapshot of the counters and of the current error list. |
| IngestWorker.IngestRun.ProcessAll | resolve_assistant/ingest_worker.py:120-187 | The loop leaves the state of the per-file fold over all pending files. |
| IngestWorker.SidecarKeys | resolve_assistant/ingest_worker.py:120-187 | After the loop, a sidecar exists iff it existed before or a pending file with that sidecar path succeeded. |
| IngestWorker.OtherSidecarsUntouched | resolve_assistant/ingest_worker.py:184 | A sidecar that no pending file writes keeps its record. |
| IngestWorker.StepsErrorsGrow | resolve_assistant/ingest_worker.py:120-187 | Through the loop each snapshot's errors are a prefix of every later snapshot's and of the final list. |
| IngestWorker.BatchErrorsGrow | resolve_assistant/ingest_worker.py:71-88 | Through the transcode phase the errors are only appended to. |
| IngestWorker.IngestRun.Run | resolve_assistant/ingest_worker.py:93-193 | The worker's effect on the state is the spec function of the whole run: reset errors, start snapshot, transcode fold, per-file fold, complete snapshot. |
| IngestWorker.IngestRun.constructor | resolve_assistant/ingest_worker.py:103 | A run starts with no errors, no progress writes and the folder's existing sidecars. |
| IngestWorker.Ingest | resolve_assistant/ingest_worker.py:93-193 | The whole run as a function of the start state and the inputs (a definition; `IngestRun.Run` is proved to equal it and `IngestProgress` states its log). |
| IngestWorker.IngestProgress | resolve_assistant/ingest_worker.py:99-193 | The run keeps the earlier log and first writes the start snapshot (no errors). Every later snapshot but the last is running. The last is `complete`, holds the final errors and reports as `completed` the total minus the lengths of the pending listings taken again at the end (an input). Errors only grow across snapshots. |
| IngestWorker.PhasesKeepLog | resolve_assistant/ingest_worker.py:106-115 | Both phases keep the earlier log, with the start snapshot first. |
| IngestWorker.PhasesRunning | resolve_assistant/ingest_worker.py:81-149 | Every snapshot of the two phases is `running`. |
| IngestWorker.PhasesErrorsGrow | resolve_assistant/ingest_worker.py:103-187 | Across both phases the error list only grows. |

## Left out

- Concurrency: the thread pool of `_batch_transcode` is modelled by its results and the order in which they finish. That order is an input permutation (`IsCompletionOrder`). A worker dying inside the pool is not modelled.
- Gemini: the upload, the polling while `PROCESSING`, `retry_gemini` and the analysis call are outcomes per file (`FileOutcome`). The prompts, the response schemas and the JSON parsing are not modelled. A reply that does not parse is an analysis exception.
- Pending video names: the lemma tying uploads to phase 1 (`UploadFollowsTranscode`) assumes the pending videos have distinct file names. The proxy map is keyed by file name, so with duplicates a video may upload another video's proxy.
- Analysis records: records are assumed to hold canonical keys (`ParsedRecordsCanonical` in `WellFormed`). This is what `json.loads` yields, since a dict has one entry per spelling.
- Upload states: `FileState` names only ACTIVE, FAILED and STATE_UNSPECIFIED. Every non-ACTIVE state behaves alike.
- Probes and listings: `ffprobe_codec`, `ffprobe_resolution`, `ffprobe_fps`, `ffprobe_duration`, `stat`, `exists` and the `list_pending_*` / `list_all_*` listings are inputs. The pending lists are taken once at the start. The remaining counts behind the final `completed` value are also inputs.
- The encoder: the `avconvert` subprocess is an `Encoder` outcome (missing, failed with stderr, or done with an output size). Its one-hour timeout surfaces as a failure like any other.
- The log: `log.info`, `log.warning` and `log.error` calls are not modelled. The oversize warning is a flag on the `Encoded` route.
- File I/O: writing the progress file, writing the sidecar JSON and `indent=2` are not modelled. Each progress write is a snapshot in a ghost log. Sidecars are a map from path to record.
- `round(x, 3)`: the probe values are stored unrounded, because floating point is not modelled.
- Sidecar records: a record is a map from field to JSON value. The five keys the worker writes are named, and every other key is kept as it was. Nested JSON values are carried as opaque tokens.
- Truthiness: `float()` parsing of segment times and NaN truthiness of probe values are not modelled. Times and probe values are reals, and a present non-zero probe value counts as true.
- Paths: normalisation (doubled or trailing `/`, `resolve()`) is not modelled. Paths are POSIX strings. Pending files are assumed to have a non-empty name (`Named`), as every listed media file does.
- Text.Lower: only ASCII letters are lowered. Python's full Unicode lowering differs only on characters that cannot form an extension of the audio set.
- IngestWorker.ProxyValues: order-independence of the proxy map is stated only when the pending videos have distinct file names. With duplicate names the last finisher wins, which `Proxies` models but no lemma describes.
- `_read_progress`: not part of this model.
- The tool function's remaining steps: `render_xml`, `build_timeline_direct`, `get_resolve`, the EDL file write, the folder checks and the reply text of `build_key_moments_timeline` are not modelled. The filter, name and count computations it makes are.
- The automatic timeline build after ingest (`build_instruction`): not modelled.
