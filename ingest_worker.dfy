/**
 * The bookkeeping of resolve_assistant/ingest_worker.py: the parallel transcode phase folding its
 * results into a proxy map and an error list, then the sequential upload-and-analyse loop that
 * writes one sidecar per pending media file, with every progress write recorded as a snapshot.
 *
 * The network, the probes and the file system are replaced by per-file inputs: what the
 * transcode environment reports, how the upload settled, what the analysis returned.
 */
module IngestWorker {
  import opened Wrappers
  import Config
  import Text
  import PurePath
  import Transcode

  // ---------------------------------------------------------------------------
  // Progress snapshots
  // ---------------------------------------------------------------------------

  datatype Status = Running | Complete

  datatype Step = Transcoding | Uploading | Analyzing | NoStep

  /** The `current_file` field: `transcoding 0/n`, `transcoding (k/n)`, a file name, or null. */
  datatype FileLabel = TranscodeStart(pending: nat) | TranscodeProgress(done: nat, pending: nat) | MediaName(name: string) | NoFile

  /** One write of the progress file; `errors` is the list as it stood at that moment. */
  datatype Snapshot = Snapshot(status: Status, currentFile: FileLabel, currentStep: Step, completed: int, total: int, errors: seq<string>)

  // ---------------------------------------------------------------------------
  // Sidecar records
  // ---------------------------------------------------------------------------

  /** A JSON value of a sidecar: strings and numbers are inspected, anything else is carried as a token. */
  datatype JsonValue = JsonString(text: string) | JsonNumber(number: real) | JsonOther(token: nat)

  /**
   * A key of a sidecar record. The five keys the worker writes are named; any other key the
   * analysis returns is `OtherField` with its spelling.
   */
  datatype Field = FilePath | FileName | AnalysisModel | Fps | Duration | OtherField(key: string)

  type Record = map<Field, JsonValue>

  /** The JSON spelling of a key. */
  function KeyName(f: Field): string {
    match f
    case FilePath => "file_path"
    case FileName => "filename"
    case AnalysisModel => "analysis_model"
    case Fps => "fps"
    case Duration => "duration"
    case OtherField(key) => key
  }

  /** The spellings of the five keys the worker writes. */
  const WorkerKeys: set<string> := {"file_path", "filename", "analysis_model", "fps", "duration"}

  /** A key is spelled one way only: `OtherField` never carries the spelling of a named key. */
  predicate CanonicalField(f: Field) {
    f.OtherField? ==> f.key !in WorkerKeys
  }

  /** A record whose keys are all canonical, as the keys of a JSON object read into a dict. */
  predicate CanonicalRecord(r: Record) {
    forall f | f in r :: CanonicalField(f)
  }

  /** Canonical keys with the same spelling are the same key: a record is a dict by spelling. */
  lemma KeyNameInjective(f: Field, g: Field)
    requires CanonicalField(f) && CanonicalField(g) && KeyName(f) == KeyName(g)
    ensures f == g
  {
  }

  /** The observable state of one ingest run. */
  datatype RunState = RunState(errors: seq<string>, log: seq<Snapshot>, sidecars: map<string, Record>, uploads: seq<string>)

  /** The error line recorded for `media`: its file name, a colon, the message. */
  function ErrorEntry(media: string, message: string): (e: string)
    ensures |PurePath.Name(media)| < |e| && e[..|PurePath.Name(media)|] == PurePath.Name(media)
  {
    PurePath.Name(media) + ": " + message
  }

  /** The sidecar of `media`: `.json` added after its suffix. */
  function SidecarPath(media: string): (r: string)
    requires PurePath.HasName(media)
    ensures r == media + ".json"
  {
    PurePath.HasNameIff(media);
    PurePath.WithExtendedSuffix(media, ".json");
    PurePath.WithSuffix(media, PurePath.Suffix(PurePath.Name(media)) + ".json").value
  }

  /** A media file is audio when its lower-cased suffix is an audio extension. */
  predicate IsAudio(media: string) {
    Text.Lower(PurePath.Suffix(PurePath.Name(media))) in Config.AudioExts
  }

  /** Only files with a suffix are audio, and a file with a video extension never is. */
  lemma AudioClassification(media: string)
    ensures IsAudio(media) ==> PurePath.Suffix(PurePath.Name(media)) != []
    ensures Text.Lower(PurePath.Suffix(PurePath.Name(media))) in Config.VideoExts ==> !IsAudio(media)
  {
    Config.ExtensionSetsDisjoint();
    assert Text.Lower([]) == [];
  }

  /** The file handed to the upload call: audio as is, video through its proxy when one was made. */
  function UploadPath(media: string, proxies: map<string, string>): (r: string)
    ensures IsAudio(media) ==> r == media
    ensures !IsAudio(media) && PurePath.Name(media) in proxies ==> r == proxies[PurePath.Name(media)]
    ensures !IsAudio(media) && PurePath.Name(media) !in proxies ==> r == media
  {
    if IsAudio(media) then media
    else if PurePath.Name(media) in proxies then proxies[PurePath.Name(media)]
    else media
  }

  /** A probe result that Python treats as true: present and non-zero. */
  predicate Nonzero(x: Option<real>) {
    x.Some? && x.value != 0.0
  }

  /** The fields every sidecar gets from the worker rather than from the analysis. */
  const Stamped: set<Field> := {FilePath, FileName, AnalysisModel}

  /**
   * The record written as the sidecar: the analysis with the path, name and model stamped over
   * it and, for video, non-zero probe values over `fps` and `duration`.
   */
  function Finalise(analysis: Record, media: string, audio: bool, fps: Option<real>, duration: Option<real>): Record {
    var stamped := Stamp(analysis, media);
    if audio then stamped else WithProbes(stamped, fps, duration)
  }

  /** The analysis with the worker's path, name and model written over it. */
  function Stamp(analysis: Record, media: string): Record {
    analysis[FilePath := JsonString(media)][FileName := JsonString(PurePath.Name(media))]
            [AnalysisModel := JsonString(Config.Model)]
  }

  /** `record` with the non-zero probe values written over `fps` and `duration`. */
  function WithProbes(record: Record, fps: Option<real>, duration: Option<real>): Record {
    var withFps := if Nonzero(fps) then record[Fps := JsonNumber(fps.value)] else record;
    if Nonzero(duration) then withFps[Duration := JsonNumber(duration.value)] else withFps
  }

  /** The probe step touches no key but `fps` and `duration`. */
  lemma WithProbesKeeps(record: Record, fps: Option<real>, duration: Option<real>, k: Field)
    requires k != Fps && k != Duration
    ensures k in WithProbes(record, fps, duration) <==> k in record
    ensures k in record ==> WithProbes(record, fps, duration)[k] == record[k]
  {
  }

  /** The sidecar holds every key of the analysis, the stamped ones and the probed ones. */
  lemma FinaliseKeys(analysis: Record, media: string, audio: bool, fps: Option<real>, duration: Option<real>)
    ensures Finalise(analysis, media, audio, fps, duration).Keys
         == analysis.Keys + Stamped
            + (if !audio && Nonzero(fps) then {Fps} else {})
            + (if !audio && Nonzero(duration) then {Duration} else {})
  {
  }

  /** The path, the name and the model are always the worker's. */
  lemma FinaliseStamps(analysis: Record, media: string, audio: bool, fps: Option<real>, duration: Option<real>)
    ensures var r := Finalise(analysis, media, audio, fps, duration);
      && FilePath in r && r[FilePath] == JsonString(media)
      && FileName in r && r[FileName] == JsonString(PurePath.Name(media))
      && AnalysisModel in r && r[AnalysisModel] == JsonString(Config.Model)
  {
    var stamped := Stamp(analysis, media);
    assert stamped[FilePath] == JsonString(media);
    assert stamped[FileName] == JsonString(PurePath.Name(media));
    assert stamped[AnalysisModel] == JsonString(Config.Model);
    WithProbesKeeps(stamped, fps, duration, FilePath);
    WithProbesKeeps(stamped, fps, duration, FileName);
    WithProbesKeeps(stamped, fps, duration, AnalysisModel);
  }

  /** For video, a non-zero probe value replaces the analysis's `fps` or `duration`. */
  lemma FinaliseProbes(analysis: Record, media: string, audio: bool, fps: Option<real>, duration: Option<real>)
    ensures var r := Finalise(analysis, media, audio, fps, duration);
      && (!audio && Nonzero(fps) ==> Fps in r && r[Fps] == JsonNumber(fps.value))
      && (!audio && Nonzero(duration) ==> Duration in r && r[Duration] == JsonNumber(duration.value))
  {
  }

  /** Every other key keeps the analysis's value. */
  lemma FinaliseKeepsAnalysis(analysis: Record, media: string, audio: bool, fps: Option<real>, duration: Option<real>, k: Field)
    requires k in analysis && k !in Stamped
    requires !(k == Fps && !audio && Nonzero(fps)) && !(k == Duration && !audio && Nonzero(duration))
    ensures k in Finalise(analysis, media, audio, fps, duration)
    ensures Finalise(analysis, media, audio, fps, duration)[k] == analysis[k]
  {
  }

  /** Stamping and probing add only named keys, so a canonical analysis gives a canonical sidecar. */
  lemma FinaliseCanonical(analysis: Record, media: string, audio: bool, fps: Option<real>, duration: Option<real>)
    requires CanonicalRecord(analysis)
    ensures CanonicalRecord(Finalise(analysis, media, audio, fps, duration))
  {
    var stamped := Stamp(analysis, media);
    forall f | f in Finalise(analysis, media, audio, fps, duration)
      ensures CanonicalField(f)
    {
      if f.OtherField? {
        WithProbesKeeps(stamped, fps, duration, f);
        assert f in stamped;
        assert f in analysis;
      }
    }
  }

  // ---------------------------------------------------------------------------
  // Phase 1: transcoding
  // ---------------------------------------------------------------------------

  /** `_transcode_one`: the video, and either the path to upload or the error text. */
  datatype TranscodeResult = TranscodeResult(original: string, proxy: Option<string>, error: Option<string>)

  /** The proxy of a result is the video itself or its cache file. */
  predicate ProxyFromSource(r: TranscodeResult) {
    r.proxy.Some? ==> r.proxy.value == r.original || Transcode.CachePath(r.original) == Some(r.proxy.value)
  }

  function TranscodeOne(video: string, env: Transcode.Environment): (r: TranscodeResult)
    ensures r.original == video
    ensures r.proxy.Some? != r.error.Some?
    ensures r.error.None? <==> Transcode.PrepareForGemini(video, env).Ok?
    ensures ProxyFromSource(r)
    ensures Transcode.PrepareForGemini(video, env).Ok? ==> r.proxy == Some(Transcode.PrepareForGemini(video, env).value.path)
    ensures Transcode.PrepareForGemini(video, env).Err? ==> r.error == Some(Transcode.PrepareForGemini(video, env).message)
  {
    match Transcode.PrepareForGemini(video, env)
    case Ok(prepared) => TranscodeResult(video, Some(prepared.path), None)
    case Err(message) => TranscodeResult(video, None, Some(message))
  }

  /** A result that records an error: its error text is non-empty. */
  predicate HasError(r: TranscodeResult) {
    r.error.Some? && r.error.value != []
  }

  /** A result whose proxy is kept. */
  predicate Stored(r: TranscodeResult) {
    !HasError(r) && r.proxy.Some?
  }

  /** `order` lists each of `n` videos exactly once: the order in which their transcodes finish. */
  predicate IsCompletionOrder(order: seq<nat>, n: nat) {
    && |order| == n
    && (forall k :: 0 <= k < n ==> order[k] < n)
    && (forall j, k :: 0 <= j < k < n ==> order[j] != order[k])
    && (forall i :: 0 <= i < n ==> i in order)
  }

  /** The results in completion order. */
  function Finished(videos: seq<string>, envs: seq<Transcode.Environment>, order: seq<nat>): (rs: seq<TranscodeResult>)
    requires |envs| == |videos| && IsCompletionOrder(order, |videos|)
    ensures |rs| == |videos|
    ensures forall k :: 0 <= k < |rs| ==> rs[k] == TranscodeOne(videos[order[k]], envs[order[k]])
  {
    seq(|order|, k requires 0 <= k < |order| => TranscodeOne(videos[order[k]], envs[order[k]]))
  }

  /** One iteration of the `as_completed` loop: record an error, then write progress. */
  function TranscodeStep(r: TranscodeResult, done: nat, n: nat, alreadyDone: int, total: int, st: RunState): RunState {
    var errors := if HasError(r) then st.errors + [ErrorEntry(r.original, r.error.value)] else st.errors;
    st.(errors := errors,
        log := st.log + [Snapshot(Running, TranscodeProgress(done, n), Transcoding, alreadyDone, total, errors)])
  }

  /** The state after the first `|rs|` results of `n` transcodes have been folded in. */
  function BatchState(rs: seq<TranscodeResult>, n: nat, alreadyDone: int, total: int, st: RunState): (r: RunState)
    ensures r.sidecars == st.sidecars && r.uploads == st.uploads
    ensures |r.log| == |st.log| + |rs| && r.log[..|st.log|] == st.log
  {
    if rs == [] then st
    else TranscodeStep(rs[|rs| - 1], |rs|, n, alreadyDone, total, BatchState(rs[..|rs| - 1], n, alreadyDone, total, st))
  }

  /** The fold over one more result is one more step. */
  lemma BatchSnoc(rs: seq<TranscodeResult>, k: nat, n: nat, alreadyDone: int, total: int, st: RunState)
    requires k < |rs|
    ensures BatchState(rs[..k + 1], n, alreadyDone, total, st)
         == TranscodeStep(rs[k], k + 1, n, alreadyDone, total, BatchState(rs[..k], n, alreadyDone, total, st))
    ensures Proxies(rs[..k + 1])
         == if Stored(rs[k]) then Proxies(rs[..k])[PurePath.Name(rs[k].original) := rs[k].proxy.value] else Proxies(rs[..k])
  {
    assert rs[..k + 1][..k] == rs[..k];
  }

  /** `TranscodeStep` recognised from the state after the error is recorded and after the write. */
  lemma TranscodeStepIs(r: TranscodeResult, done: nat, n: nat, alreadyDone: int, total: int, st: RunState, recorded: RunState, after: RunState)
    requires HasError(r) ==> recorded == st.(errors := st.errors + [ErrorEntry(r.original, r.error.value)])
    requires !HasError(r) ==> recorded == st
    requires after == recorded.(log := recorded.log + [Snapshot(Running, TranscodeProgress(done, n), Transcoding, alreadyDone, total, recorded.errors)])
    ensures after == TranscodeStep(r, done, n, alreadyDone, total, st)
  {
  }

  /** The error line of a transcode result. */
  function ErrorLine(r: TranscodeResult): string
    requires r.error.Some?
  {
    ErrorEntry(r.original, r.error.value)
  }

  /** `r` failed, and `e` is its error line. */
  predicate FailedWith(r: TranscodeResult, e: string) {
    HasError(r) && e == ErrorLine(r)
  }

  /** The error lines of the failed results, in completion order. */
  function TranscodeErrors(rs: seq<TranscodeResult>): (es: seq<string>)
    ensures |es| <= |rs|
  {
    if rs == [] then []
    else
      var last := rs[|rs| - 1];
      TranscodeErrors(rs[..|rs| - 1]) + (if HasError(last) then [ErrorLine(last)] else [])
  }

  /** A line is among the transcode errors exactly when some result failed with it. */
  lemma TranscodeErrorsMembers(rs: seq<TranscodeResult>, e: string)
    ensures e in TranscodeErrors(rs) <==> exists j :: 0 <= j < |rs| && FailedWith(rs[j], e)
  {
    if e in TranscodeErrors(rs) {
      var j := TranscodeErrorSource(rs, e);
    }
    if exists j :: 0 <= j < |rs| && FailedWith(rs[j], e) {
      var j :| 0 <= j < |rs| && FailedWith(rs[j], e);
      TranscodeErrorListed(rs, j, e);
    }
  }

  /** Every transcode error line comes from a failed result. */
  lemma {:induction false} TranscodeErrorSource(rs: seq<TranscodeResult>, e: string) returns (j: nat)
    requires e in TranscodeErrors(rs)
    ensures j < |rs| && FailedWith(rs[j], e)
    decreases |rs|
  {
    var init := rs[..|rs| - 1];
    var last := rs[|rs| - 1];
    var tail := if HasError(last) then [ErrorLine(last)] else [];
    assert TranscodeErrors(rs) == TranscodeErrors(init) + tail;
    if e in TranscodeErrors(init) {
      j := TranscodeErrorSource(init, e);
      assert rs[j] == init[j];
    } else {
      j := |rs| - 1;
    }
  }

  /** Every failed result's error line is listed. */
  lemma {:induction false} TranscodeErrorListed(rs: seq<TranscodeResult>, j: nat, e: string)
    requires j < |rs| && FailedWith(rs[j], e)
    ensures e in TranscodeErrors(rs)
    decreases |rs|
  {
    var init := rs[..|rs| - 1];
    var last := rs[|rs| - 1];
    var tail := if HasError(last) then [ErrorLine(last)] else [];
    assert TranscodeErrors(rs) == TranscodeErrors(init) + tail;
    if j < |init| {
      assert init[j] == rs[j];
      TranscodeErrorListed(init, j, e);
    }
  }

  /** The `proxies` map: each stored result under its file name, later results overriding earlier ones. */
  function Proxies(rs: seq<TranscodeResult>): map<string, string> {
    if rs == [] then map[]
    else
      var last := rs[|rs| - 1];
      if Stored(last) then Proxies(rs[..|rs| - 1])[PurePath.Name(last.original) := last.proxy.value]
      else Proxies(rs[..|rs| - 1])
  }

  /** The error list grows by exactly the error lines of the failed results. */
  lemma {:induction false} BatchErrors(rs: seq<TranscodeResult>, n: nat, alreadyDone: int, total: int, st: RunState)
    ensures BatchState(rs, n, alreadyDone, total, st).errors == st.errors + TranscodeErrors(rs)
    decreases |rs|
  {
    if rs != [] {
      BatchErrors(rs[..|rs| - 1], n, alreadyDone, total, st);
    }
  }

  /**
   * The k-th transcode snapshot reports `k + 1` of `n` done, the completed count of the files
   * already ingested, and the errors as they stood after that result.
   */
  lemma {:induction false} BatchLog(rs: seq<TranscodeResult>, n: nat, alreadyDone: int, total: int, st: RunState, k: nat)
    requires k < |rs|
    ensures BatchState(rs, n, alreadyDone, total, st).log[|st.log| + k]
         == Snapshot(Running, TranscodeProgress(k + 1, n), Transcoding, alreadyDone, total,
                     st.errors + TranscodeErrors(rs[..k + 1]))
    decreases |rs|
  {
    var init := rs[..|rs| - 1];
    if k == |rs| - 1 {
      BatchErrors(rs, n, alreadyDone, total, st);
      assert rs[..k + 1] == rs;
    } else {
      BatchLog(init, n, alreadyDone, total, st, k);
      assert init[..k + 1] == rs[..k + 1];
    }
  }

  /** A name is a key of the proxy map exactly when some stored result has that name. */
  lemma {:induction false} ProxyKeys(rs: seq<TranscodeResult>, name: string)
    ensures name in Proxies(rs) <==> exists j :: 0 <= j < |rs| && Stored(rs[j]) && PurePath.Name(rs[j].original) == name
    decreases |rs|
  {
    if rs != [] {
      var init := rs[..|rs| - 1];
      ProxyKeys(init, name);
      assert forall j :: 0 <= j < |init| ==> init[j] == rs[j];
      if name in Proxies(rs) && name !in Proxies(init) {
        assert Stored(rs[|rs| - 1]) && PurePath.Name(rs[|rs| - 1].original) == name;
      }
    }
  }

  /** No two results share a file name. */
  predicate DistinctNames(rs: seq<TranscodeResult>) {
    forall a, b :: 0 <= a < b < |rs| ==> PurePath.Name(rs[a].original) != PurePath.Name(rs[b].original)
  }

  /** With distinct file names, a stored result is found under its name and a failed one is absent. */
  lemma {:induction false} ProxyValues(rs: seq<TranscodeResult>, j: nat)
    requires j < |rs| && DistinctNames(rs)
    ensures Stored(rs[j]) ==> PurePath.Name(rs[j].original) in Proxies(rs)
    ensures Stored(rs[j]) ==> Proxies(rs)[PurePath.Name(rs[j].original)] == rs[j].proxy.value
    ensures !Stored(rs[j]) ==> PurePath.Name(rs[j].original) !in Proxies(rs)
    decreases |rs|
  {
    var n := |rs| - 1;
    var init := rs[..n];
    var name := PurePath.Name(rs[j].original);
    DistinctSplit(rs);
    if j < n {
      assert init[j] == rs[j];
      ProxyValues(init, j);
      ProxiesOther(rs, name);
    } else {
      ProxyAbsent(init, name);
      ProxiesLast(rs);
    }
  }

  /** The prefix of a distinct list is distinct, and none of its names is the last one's. */
  lemma DistinctSplit(rs: seq<TranscodeResult>)
    requires rs != [] && DistinctNames(rs)
    ensures DistinctNames(rs[..|rs| - 1])
    ensures var init := rs[..|rs| - 1];
      forall k :: 0 <= k < |init| ==> PurePath.Name(init[k].original) != PurePath.Name(rs[|rs| - 1].original)
  {
    var init := rs[..|rs| - 1];
    forall a, b | 0 <= a < b < |init| ensures PurePath.Name(init[a].original) != PurePath.Name(init[b].original) {
      assert init[a] == rs[a] && init[b] == rs[b];
    }
    forall k | 0 <= k < |init| ensures PurePath.Name(init[k].original) != PurePath.Name(rs[|rs| - 1].original) {
      assert init[k] == rs[k];
    }
  }

  /** The last result does not touch the entries under other names. */
  lemma ProxiesOther(rs: seq<TranscodeResult>, name: string)
    requires rs != [] && name != PurePath.Name(rs[|rs| - 1].original)
    ensures name in Proxies(rs) <==> name in Proxies(rs[..|rs| - 1])
    ensures name in Proxies(rs) ==> Proxies(rs)[name] == Proxies(rs[..|rs| - 1])[name]
  {
    var last := rs[|rs| - 1];
    var before := Proxies(rs[..|rs| - 1]);
    if Stored(last) {
      var key := PurePath.Name(last.original);
      assert Proxies(rs) == before[key := last.proxy.value];
      UpdateElsewhere(before, key, last.proxy.value, name);
    } else {
      assert Proxies(rs) == before;
    }
  }

  lemma UpdateElsewhere<K, V>(m: map<K, V>, key: K, value: V, other: K)
    requires other != key
    ensures other in m[key := value] <==> other in m
    ensures other in m ==> m[key := value][other] == m[other]
  {
  }

  /** The last result, under a fresh name, is stored exactly when it succeeded. */
  lemma ProxiesLast(rs: seq<TranscodeResult>)
    requires rs != []
    requires PurePath.Name(rs[|rs| - 1].original) !in Proxies(rs[..|rs| - 1])
    ensures Stored(rs[|rs| - 1]) ==> Proxies(rs)[PurePath.Name(rs[|rs| - 1].original)] == rs[|rs| - 1].proxy.value
    ensures Stored(rs[|rs| - 1]) <==> PurePath.Name(rs[|rs| - 1].original) in Proxies(rs)
  {
  }

  /** A name that no result carries is not a key of the proxy map. */
  lemma {:induction false} ProxyAbsent(rs: seq<TranscodeResult>, name: string)
    requires forall k :: 0 <= k < |rs| ==> PurePath.Name(rs[k].original) != name
    ensures name !in Proxies(rs)
    decreases |rs|
  {
    if rs != [] {
      var init := rs[..|rs| - 1];
      forall k | 0 <= k < |init| ensures PurePath.Name(init[k].original) != name {
        assert init[k] == rs[k];
      }
      ProxyAbsent(init, name);
    }
  }

  /** Every proxy in the map is one of the transcoded videos or that video's cache file. */
  lemma {:induction false} ProxiesFromSources(rs: seq<TranscodeResult>, name: string)
    requires forall j :: 0 <= j < |rs| ==> ProxyFromSource(rs[j])
    requires name in Proxies(rs)
    ensures exists j :: 0 <= j < |rs| && PurePath.Name(rs[j].original) == name
                        && (Proxies(rs)[name] == rs[j].original || Transcode.CachePath(rs[j].original) == Some(Proxies(rs)[name]))
    decreases |rs|
  {
    var init := rs[..|rs| - 1];
    var last := rs[|rs| - 1];
    if Stored(last) && PurePath.Name(last.original) == name {
      assert PurePath.Name(rs[|rs| - 1].original) == name;
    } else {
      assert forall j :: 0 <= j < |init| ==> init[j] == rs[j];
      ProxiesFromSources(init, name);
      var j :| 0 <= j < |init| && PurePath.Name(init[j].original) == name
               && (Proxies(init)[name] == init[j].original || Transcode.CachePath(init[j].original) == Some(Proxies(init)[name]));
      assert rs[j] == init[j];
    }
  }

  /** No two of `files` share a file name. */
  predicate DistinctFileNames(files: seq<string>) {
    forall a, b :: 0 <= a < b < |files| ==> PurePath.Name(files[a]) != PurePath.Name(files[b])
  }

  /**
   * What phase 2 uploads for the `i`-th pending video, given the proxies of phase 1: the file
   * `prepare_for_gemini` returned for it, or the video itself when that raised (or when it is
   * audio).
   */
  lemma UploadFollowsTranscode(videos: seq<string>, envs: seq<Transcode.Environment>, order: seq<nat>, i: nat)
    requires |envs| == |videos| && IsCompletionOrder(order, |videos|)
    requires DistinctFileNames(videos) && i < |videos|
    ensures var prepared := Transcode.PrepareForGemini(videos[i], envs[i]);
      UploadPath(videos[i], Proxies(Finished(videos, envs, order)))
      == if IsAudio(videos[i]) || prepared.Err? then videos[i] else prepared.value.path
  {
    var rs := Finished(videos, envs, order);
    assert i in order;
    var k :| 0 <= k < |order| && order[k] == i;
    FinishedDistinct(videos, envs, order);
    ProxyValues(rs, k);
    assert rs[k] == TranscodeOne(videos[i], envs[i]);
  }

  /** Distinct video names give distinct result names, whatever the completion order. */
  lemma FinishedDistinct(videos: seq<string>, envs: seq<Transcode.Environment>, order: seq<nat>)
    requires |envs| == |videos| && IsCompletionOrder(order, |videos|) && DistinctFileNames(videos)
    ensures DistinctNames(Finished(videos, envs, order))
  {
    var rs := Finished(videos, envs, order);
    forall a, b | 0 <= a < b < |rs|
      ensures PurePath.Name(rs[a].original) != PurePath.Name(rs[b].original)
    {
      assert rs[a].original == videos[order[a]] && rs[b].original == videos[order[b]];
      assert order[a] != order[b];
      if order[a] < order[b] {
        assert PurePath.Name(videos[order[a]]) != PurePath.Name(videos[order[b]]);
      } else {
        assert PurePath.Name(videos[order[b]]) != PurePath.Name(videos[order[a]]);
      }
    }
  }

  // ---------------------------------------------------------------------------
  // Phase 2: upload and analysis, one file at a time
  // ---------------------------------------------------------------------------

  /** The states of an uploaded file other than `PROCESSING`, which the worker polls past. */
  datatype FileState = Active | Failed | StateUnspecified

  function StateName(s: FileState): string {
    match s
    case Active => "ACTIVE"
    case Failed => "FAILED"
    case StateUnspecified => "STATE_UNSPECIFIED"
  }

  /** How the upload ended: an exception, or the state it settled in after processing. */
  datatype Upload = UploadRaised(message: string) | UploadSettled(state: FileState)

  /** How the analysis ended: an exception (including a reply that is not a JSON object), or the parsed record. */
  datatype Analysis = AnalysisRaised(message: string) | AnalysisParsed(record: Record)

  /**
   * What the outside world does for one pending file. `finishError` is an exception raised
   * after the analysis parsed, by a probe or by writing the sidecar.
   */
  datatype FileOutcome = FileOutcome(upload: Upload, analysis: Analysis, probeFps: Option<real>,
                                     probeDuration: Option<real>, finishError: Option<string>)

  /** The file gets its sidecar: the upload became active, the analysis parsed, nothing raised after. */
  predicate Succeeds(o: FileOutcome) {
    o.upload == UploadSettled(Active) && o.analysis.AnalysisParsed? && o.finishError.None?
  }

  /** The error line of a failing file. */
  function FailureEntry(media: string, o: FileOutcome): (e: string)
    requires !Succeeds(o)
    ensures |PurePath.Name(media)| < |e| && e[..|PurePath.Name(media)|] == PurePath.Name(media)
  {
    match o.upload
    case UploadRaised(message) => ErrorEntry(media, message)
    case UploadSettled(state) =>
      if state != Active then ErrorEntry(media, "upload state=" + StateName(state))
      else match o.analysis
        case AnalysisRaised(message) => ErrorEntry(media, message)
        case AnalysisParsed(_) => ErrorEntry(media, o.finishError.value)
  }

  function UploadingSnapshot(i: int, media: string, alreadyDone: int, total: int, errors: seq<string>): Snapshot {
    Snapshot(Running, MediaName(PurePath.Name(media)), Uploading, alreadyDone + i, total, errors)
  }

  function AnalyzingSnapshot(i: int, media: string, alreadyDone: int, total: int, errors: seq<string>): Snapshot {
    Snapshot(Running, MediaName(PurePath.Name(media)), Analyzing, alreadyDone + i, total, errors)
  }

  /** The snapshots written for the `i`-th pending file: one, or two once its upload is active. */
  function FileSnapshots(i: int, media: string, o: FileOutcome, alreadyDone: int, total: int, errors: seq<string>): seq<Snapshot> {
    if o.upload == UploadSettled(Active) then
      [UploadingSnapshot(i, media, alreadyDone, total, errors), AnalyzingSnapshot(i, media, alreadyDone, total, errors)]
    else [UploadingSnapshot(i, media, alreadyDone, total, errors)]
  }

  /** One iteration of the per-file loop, for the `i`-th pending file: upload, then analyse if the upload is active. */
  function FileStep(i: int, media: string, o: FileOutcome, proxies: map<string, string>, alreadyDone: int, total: int, st: RunState): RunState
    requires PurePath.HasName(media)
  {
    var uploading := st.(log := st.log + [UploadingSnapshot(i, media, alreadyDone, total, st.errors)],
                         uploads := st.uploads + [UploadPath(media, proxies)]);
    match o.upload
    case UploadRaised(message) => uploading.(errors := st.errors + [ErrorEntry(media, message)])
    case UploadSettled(state) =>
      if state != Active then uploading.(errors := st.errors + [ErrorEntry(media, "upload state=" + StateName(state))])
      else AnalysisStep(i, media, o, alreadyDone, total, uploading)
  }

  /** The rest of the iteration once the upload is active: analyse, stamp the record, write the sidecar. */
  function AnalysisStep(i: int, media: string, o: FileOutcome, alreadyDone: int, total: int, st: RunState): RunState
    requires PurePath.HasName(media)
  {
    var analyzing := st.(log := st.log + [AnalyzingSnapshot(i, media, alreadyDone, total, st.errors)]);
    match o.analysis
    case AnalysisRaised(message) => analyzing.(errors := st.errors + [ErrorEntry(media, message)])
    case AnalysisParsed(record) =>
      if o.finishError.Some? then analyzing.(errors := st.errors + [ErrorEntry(media, o.finishError.value)])
      else analyzing.(sidecars := st.sidecars[SidecarPath(media) := Finalise(record, media, IsAudio(media), o.probeFps, o.probeDuration)])
  }

  /** `FileStep` recognised from the state after the upload and what followed it. */
  lemma FileStepIs(i: int, media: string, o: FileOutcome, proxies: map<string, string>, alreadyDone: int, total: int,
                   st: RunState, uploading: RunState, r: RunState)
    requires PurePath.HasName(media)
    requires uploading == st.(log := st.log + [UploadingSnapshot(i, media, alreadyDone, total, st.errors)],
                              uploads := st.uploads + [UploadPath(media, proxies)])
    requires o.upload.UploadRaised? ==> r == uploading.(errors := st.errors + [ErrorEntry(media, o.upload.message)])
    requires o.upload.UploadSettled? && o.upload.state != Active ==>
      r == uploading.(errors := st.errors + [ErrorEntry(media, "upload state=" + StateName(o.upload.state))])
    requires o.upload == UploadSettled(Active) ==> r == AnalysisStep(i, media, o, alreadyDone, total, uploading)
    ensures r == FileStep(i, media, o, proxies, alreadyDone, total, st)
  {
  }

  /** `AnalysisStep` recognised from the parts of the state it changes. */
  lemma AnalysisStepIs(i: int, media: string, o: FileOutcome, alreadyDone: int, total: int, st: RunState, r: RunState)
    requires PurePath.HasName(media)
    requires r.log == st.log + [AnalyzingSnapshot(i, media, alreadyDone, total, st.errors)] && r.uploads == st.uploads
    requires o.analysis.AnalysisRaised? ==> r.errors == st.errors + [ErrorEntry(media, o.analysis.message)] && r.sidecars == st.sidecars
    requires o.analysis.AnalysisParsed? && o.finishError.Some? ==>
      r.errors == st.errors + [ErrorEntry(media, o.finishError.value)] && r.sidecars == st.sidecars
    requires o.analysis.AnalysisParsed? && o.finishError.None? ==>
      r.errors == st.errors
      && r.sidecars == st.sidecars[SidecarPath(media) := Finalise(o.analysis.record, media, IsAudio(media), o.probeFps, o.probeDuration)]
    ensures r == AnalysisStep(i, media, o, alreadyDone, total, st)
  {
  }

  /** `FileStep` written out for the two ways a file can end. */
  lemma FileStepClosedForm(i: int, media: string, o: FileOutcome, proxies: map<string, string>, alreadyDone: int, total: int, st: RunState)
    requires PurePath.HasName(media)
    ensures Succeeds(o) ==> (FileStep(i, media, o, proxies, alreadyDone, total, st)
      == RunState(st.errors, st.log + FileSnapshots(i, media, o, alreadyDone, total, st.errors),
                  st.sidecars[SidecarPath(media) := Finalise(o.analysis.record, media, IsAudio(media), o.probeFps, o.probeDuration)],
                  st.uploads + [UploadPath(media, proxies)]))
    ensures !Succeeds(o) ==> (FileStep(i, media, o, proxies, alreadyDone, total, st)
      == RunState(st.errors + [FailureEntry(media, o)], st.log + FileSnapshots(i, media, o, alreadyDone, total, st.errors),
                  st.sidecars, st.uploads + [UploadPath(media, proxies)]))
  {
    var u := UploadingSnapshot(i, media, alreadyDone, total, st.errors);
    var uploading := st.(log := st.log + [u], uploads := st.uploads + [UploadPath(media, proxies)]);
    var r := FileStep(i, media, o, proxies, alreadyDone, total, st);
    if o.upload == UploadSettled(Active) {
      var a := AnalyzingSnapshot(i, media, alreadyDone, total, st.errors);
      assert r == AnalysisStep(i, media, o, alreadyDone, total, uploading);
      assert FileSnapshots(i, media, o, alreadyDone, total, st.errors) == [u, a];
      AppendTwo(st.log, u, a);
    } else {
      assert FileSnapshots(i, media, o, alreadyDone, total, st.errors) == [u];
    }
  }

  lemma AppendTwo(log: seq<Snapshot>, u: Snapshot, a: Snapshot)
    ensures log + [u] + [a] == log + [u, a]
  {
  }

  /** Every pending file has a non-empty name (the listings return files). */
  predicate Named(files: seq<string>) {
    forall k :: 0 <= k < |files| ==> PurePath.HasName(files[k])
  }

  /** The state after the first `|pending|` files of the loop. */
  function Steps(pending: seq<string>, outcomes: seq<FileOutcome>, proxies: map<string, string>,
                 alreadyDone: int, total: int, st: RunState): RunState
    requires |outcomes| == |pending| && Named(pending)
    decreases |pending|
  {
    if pending == [] then st
    else
      var n := |pending| - 1;
      FileStep(n, pending[n], outcomes[n], proxies, alreadyDone, total,
               Steps(pending[..n], outcomes[..n], proxies, alreadyDone, total, st))
  }

  /** The loop's state after file `i` is that file's step applied to the state before it. */
  lemma StepsSnoc(pending: seq<string>, outcomes: seq<FileOutcome>, proxies: map<string, string>,
                  alreadyDone: int, total: int, st: RunState, i: nat)
    requires |outcomes| == |pending| && Named(pending) && i < |pending|
    ensures Steps(pending[..i + 1], outcomes[..i + 1], proxies, alreadyDone, total, st)
         == FileStep(i, pending[i], outcomes[i], proxies, alreadyDone, total,
                     Steps(pending[..i], outcomes[..i], proxies, alreadyDone, total, st))
  {
    assert pending[..i + 1][..i] == pending[..i];
    assert outcomes[..i + 1][..i] == outcomes[..i];
  }

  /** A file whose upload settles in any state but `ACTIVE` gets one snapshot, one error line and no sidecar. */
  lemma InactiveUploadSkips(i: int, media: string, o: FileOutcome, proxies: map<string, string>, alreadyDone: int, total: int, st: RunState)
    requires PurePath.HasName(media)
    requires o.upload.UploadSettled? && o.upload.state != Active
    ensures FileStep(i, media, o, proxies, alreadyDone, total, st)
         == RunState(st.errors + [PurePath.Name(media) + ": " + ("upload state=" + StateName(o.upload.state))],
                     st.log + [UploadingSnapshot(i, media, alreadyDone, total, st.errors)],
                     st.sidecars, st.uploads + [UploadPath(media, proxies)])
  {
  }

  /**
   * One file changes the state in exactly one of two ways: it succeeds and its sidecar is
   * written with no new error, or it fails, one error line naming it is appended and no sidecar
   * is written.
   */
  lemma FileStepEffect(i: int, media: string, o: FileOutcome, proxies: map<string, string>, alreadyDone: int, total: int, st: RunState)
    requires PurePath.HasName(media)
    ensures var r := FileStep(i, media, o, proxies, alreadyDone, total, st);
      && (Succeeds(o) ==> r.errors == st.errors
                          && r.sidecars == st.sidecars[media + ".json" := Finalise(o.analysis.record, media, IsAudio(media), o.probeFps, o.probeDuration)])
      && (!Succeeds(o) ==> r.sidecars == st.sidecars && |r.errors| == |st.errors| + 1 && r.errors[..|st.errors|] == st.errors
                           && r.errors[|st.errors|][..|PurePath.Name(media)|] == PurePath.Name(media))
      && r.uploads == st.uploads + [UploadPath(media, proxies)]
  {
    FileStepClosedForm(i, media, o, proxies, alreadyDone, total, st);
    var r := FileStep(i, media, o, proxies, alreadyDone, total, st);
    if !Succeeds(o) {
      var e := FailureEntry(media, o);
      assert r.errors == st.errors + [e];
      assert r.errors[|st.errors|] == e;
    }
  }

  /** The snapshots of file `i` report `already_done + i` and the errors as they stood before it. */
  lemma FileStepProgress(i: int, media: string, o: FileOutcome, proxies: map<string, string>, alreadyDone: int, total: int, st: RunState)
    requires PurePath.HasName(media)
    ensures var r := FileStep(i, media, o, proxies, alreadyDone, total, st);
      && |st.log| < |r.log| && r.log[..|st.log|] == st.log
      && r.log[|st.log|].currentStep == Uploading
      && forall k :: |st.log| <= k < |r.log| ==>
           r.log[k].status == Running && r.log[k].currentFile == MediaName(PurePath.Name(media))
           && r.log[k].completed == alreadyDone + i && r.log[k].errors == st.errors
  {
    var r := FileStep(i, media, o, proxies, alreadyDone, total, st);
    var snaps := FileSnapshots(i, media, o, alreadyDone, total, st.errors);
    FileStepLog(i, media, o, proxies, alreadyDone, total, st);
    FileSnapshotsShape(i, media, o, alreadyDone, total, st.errors);
    assert r.log[|st.log|] == snaps[0];
    forall k | |st.log| <= k < |r.log|
      ensures r.log[k].status == Running && r.log[k].currentFile == MediaName(PurePath.Name(media))
           && r.log[k].completed == alreadyDone + i && r.log[k].errors == st.errors
    {
      assert r.log[k] == snaps[k - |st.log|];
    }
  }

  lemma FileSnapshotsShape(i: int, media: string, o: FileOutcome, alreadyDone: int, total: int, errors: seq<string>)
    ensures var s := FileSnapshots(i, media, o, alreadyDone, total, errors);
      && 1 <= |s| && s[0].currentStep == Uploading
      && forall k :: 0 <= k < |s| ==>
           s[k].status == Running && s[k].currentFile == MediaName(PurePath.Name(media))
           && s[k].completed == alreadyDone + i && s[k].errors == errors
  {
    var s := FileSnapshots(i, media, o, alreadyDone, total, errors);
    var u := UploadingSnapshot(i, media, alreadyDone, total, errors);
    if o.upload == UploadSettled(Active) {
      assert s == [u, AnalyzingSnapshot(i, media, alreadyDone, total, errors)];
    } else {
      assert s == [u];
    }
  }

  /** Each file step appends exactly the file's snapshots and its upload. */
  lemma FileStepLog(i: int, media: string, o: FileOutcome, proxies: map<string, string>, alreadyDone: int, total: int, st: RunState)
    requires PurePath.HasName(media)
    ensures var r := FileStep(i, media, o, proxies, alreadyDone, total, st);
      r.log == st.log + FileSnapshots(i, media, o, alreadyDone, total, st.errors)
  {
    FileStepClosedForm(i, media, o, proxies, alreadyDone, total, st);
  }

  /** Each file step appends its failure line, if any, to the errors. */
  lemma FileStepErrors(i: int, media: string, o: FileOutcome, proxies: map<string, string>, alreadyDone: int, total: int, st: RunState)
    requires PurePath.HasName(media)
    ensures FileStep(i, media, o, proxies, alreadyDone, total, st).errors
         == st.errors + (if Succeeds(o) then [] else [FailureEntry(media, o)])
  {
    FileStepClosedForm(i, media, o, proxies, alreadyDone, total, st);
    if Succeeds(o) {
      assert st.errors + [] == st.errors;
    }
  }

  /** The snapshots written while processing the `i`-th pending file all report `already_done + i`. */
  lemma PendingFileProgress(pending: seq<string>, outcomes: seq<FileOutcome>, proxies: map<string, string>,
                            alreadyDone: int, total: int, st: RunState, i: nat)
    requires |outcomes| == |pending| && Named(pending) && i < |pending|
    ensures var before := Steps(pending[..i], outcomes[..i], proxies, alreadyDone, total, st);
            var after := Steps(pending[..i + 1], outcomes[..i + 1], proxies, alreadyDone, total, st);
      && |before.log| < |after.log| && after.log[..|before.log|] == before.log
      && forall k :: |before.log| <= k < |after.log| ==>
           after.log[k].completed == alreadyDone + i && after.log[k].currentFile == MediaName(PurePath.Name(pending[i]))
  {
    var before := Steps(pending[..i], outcomes[..i], proxies, alreadyDone, total, st);
    assert pending[..i + 1][..i] == pending[..i];
    assert outcomes[..i + 1][..i] == outcomes[..i];
    FileStepProgress(i, pending[i], outcomes[i], proxies, alreadyDone, total, before);
  }

  /** The set of sidecar paths written for the successful files among the first `n`. */
  function WrittenSidecars(pending: seq<string>, outcomes: seq<FileOutcome>): set<string>
    requires |outcomes| == |pending|
  {
    set k | 0 <= k < |pending| && Succeeds(outcomes[k]) :: pending[k] + ".json"
  }

  /** A sidecar exists after the loop exactly when it existed before or a pending file with that sidecar succeeded. */
  lemma {:induction false} SidecarKeys(pending: seq<string>, outcomes: seq<FileOutcome>, proxies: map<string, string>,
                                       alreadyDone: int, total: int, st: RunState)
    requires |outcomes| == |pending| && Named(pending)
    ensures Steps(pending, outcomes, proxies, alreadyDone, total, st).sidecars.Keys
         == st.sidecars.Keys + WrittenSidecars(pending, outcomes)
    decreases |pending|
  {
    if pending != [] {
      var n := |pending| - 1;
      SidecarKeys(pending[..n], outcomes[..n], proxies, alreadyDone, total, st);
      var prev := Steps(pending[..n], outcomes[..n], proxies, alreadyDone, total, st);
      FileStepKeys(n, pending[n], outcomes[n], proxies, alreadyDone, total, prev);
      WrittenSidecarsStep(pending, outcomes);
    }
  }

  lemma FileStepKeys(i: int, media: string, o: FileOutcome, proxies: map<string, string>, alreadyDone: int, total: int, st: RunState)
    requires PurePath.HasName(media)
    ensures FileStep(i, media, o, proxies, alreadyDone, total, st).sidecars.Keys
         == st.sidecars.Keys + (if Succeeds(o) then {media + ".json"} else {})
  {
    FileStepEffect(i, media, o, proxies, alreadyDone, total, st);
  }

  lemma WrittenSidecarsStep(pending: seq<string>, outcomes: seq<FileOutcome>)
    requires |outcomes| == |pending| && pending != []
    ensures var n := |pending| - 1;
      WrittenSidecars(pending, outcomes)
      == WrittenSidecars(pending[..n], outcomes[..n]) + (if Succeeds(outcomes[n]) then {pending[n] + ".json"} else {})
  {
    var n := |pending| - 1;
    var a := WrittenSidecars(pending, outcomes);
    var b := WrittenSidecars(pending[..n], outcomes[..n]) + (if Succeeds(outcomes[n]) then {pending[n] + ".json"} else {});
    forall p | p in a ensures p in b {
      var k :| 0 <= k < |pending| && Succeeds(outcomes[k]) && p == pending[k] + ".json";
      if k < n {
        assert pending[..n][k] == pending[k] && outcomes[..n][k] == outcomes[k];
      }
    }
    forall p | p in b ensures p in a {
      if p !in WrittenSidecars(pending[..n], outcomes[..n]) {
        assert p == pending[n] + ".json" && Succeeds(outcomes[n]);
      } else {
        var k :| 0 <= k < n && Succeeds(outcomes[..n][k]) && p == pending[..n][k] + ".json";
        assert pending[..n][k] == pending[k];
      }
    }
  }

  /** A sidecar that no pending file writes to keeps its record. */
  lemma {:induction false} OtherSidecarsUntouched(pending: seq<string>, outcomes: seq<FileOutcome>, proxies: map<string, string>,
                                                  alreadyDone: int, total: int, st: RunState, path: string)
    requires |outcomes| == |pending| && Named(pending)
    requires path in st.sidecars && forall k :: 0 <= k < |pending| ==> path != pending[k] + ".json"
    ensures path in Steps(pending, outcomes, proxies, alreadyDone, total, st).sidecars
    ensures Steps(pending, outcomes, proxies, alreadyDone, total, st).sidecars[path] == st.sidecars[path]
    decreases |pending|
  {
    if pending != [] {
      var n := |pending| - 1;
      OtherSidecarsUntouched(pending[..n], outcomes[..n], proxies, alreadyDone, total, st, path);
      var prev := Steps(pending[..n], outcomes[..n], proxies, alreadyDone, total, st);
      FileStepEffect(n, pending[n], outcomes[n], proxies, alreadyDone, total, prev);
    }
  }

  // ---------------------------------------------------------------------------
  // Errors only grow
  // ---------------------------------------------------------------------------

  /**
   * From position `from` on, each snapshot's error list is a prefix of every later one's and of
   * `errors`.
   */
  predicate ErrorsGrow(log: seq<Snapshot>, from: nat, errors: seq<string>) {
    && (forall j, k :: from <= j < k < |log| ==> log[j].errors <= log[k].errors)
    && (forall j :: from <= j < |log| ==> log[j].errors <= errors)
  }

  lemma PrefixTransitive(a: seq<string>, b: seq<string>, c: seq<string>)
    requires a <= b && b <= c
    ensures a <= c
  {
    assert c[..|a|] == c[..|b|][..|a|];
  }

  lemma ErrorsGrowExtend(log: seq<Snapshot>, from: nat, errors: seq<string>, more: seq<string>)
    requires ErrorsGrow(log, from, errors)
    ensures ErrorsGrow(log, from, errors + more)
  {
    forall j | from <= j < |log| ensures log[j].errors <= errors + more {
      PrefixTransitive(log[j].errors, errors, errors + more);
    }
  }

  lemma ErrorsGrowAppend(log: seq<Snapshot>, from: nat, errors: seq<string>, s: Snapshot)
    requires ErrorsGrow(log, from, errors) && s.errors == errors && from <= |log|
    ensures ErrorsGrow(log + [s], from, errors)
  {
    var l := log + [s];
    forall j, k | from <= j < k < |l| ensures l[j].errors <= l[k].errors {
      if k == |log| {
        assert l[j] == log[j];
      } else {
        assert l[j] == log[j] && l[k] == log[k];
      }
    }
  }

  lemma {:induction false} BatchErrorsGrow(rs: seq<TranscodeResult>, n: nat, alreadyDone: int, total: int, st: RunState, from: nat)
    requires ErrorsGrow(st.log, from, st.errors) && from <= |st.log|
    ensures var r := BatchState(rs, n, alreadyDone, total, st); ErrorsGrow(r.log, from, r.errors)
    decreases |rs|
  {
    if rs != [] {
      var prev := BatchState(rs[..|rs| - 1], n, alreadyDone, total, st);
      BatchErrorsGrow(rs[..|rs| - 1], n, alreadyDone, total, st, from);
      var r := TranscodeStep(rs[|rs| - 1], |rs|, n, alreadyDone, total, prev);
      ErrorsGrowExtend(prev.log, from, prev.errors, r.errors[|prev.errors|..]);
      assert prev.errors + r.errors[|prev.errors|..] == r.errors;
      ErrorsGrowAppend(prev.log, from, r.errors, r.log[|r.log| - 1]);
      assert prev.log + [r.log[|r.log| - 1]] == r.log;
    }
  }

  lemma FileStepErrorsGrow(i: int, media: string, o: FileOutcome, proxies: map<string, string>,
                           alreadyDone: int, total: int, st: RunState, from: nat)
    requires PurePath.HasName(media)
    requires ErrorsGrow(st.log, from, st.errors) && from <= |st.log|
    ensures var r := FileStep(i, media, o, proxies, alreadyDone, total, st); ErrorsGrow(r.log, from, r.errors)
  {
    FileStepLog(i, media, o, proxies, alreadyDone, total, st);
    FileStepErrors(i, media, o, proxies, alreadyDone, total, st);
    FileSnapshotsShape(i, media, o, alreadyDone, total, st.errors);
    ErrorsGrowAppendAll(st.log, from, st.errors, FileSnapshots(i, media, o, alreadyDone, total, st.errors));
    ErrorsGrowExtend(st.log + FileSnapshots(i, media, o, alreadyDone, total, st.errors), from, st.errors,
                     if Succeeds(o) then [] else [FailureEntry(media, o)]);
  }

  lemma {:induction false} ErrorsGrowAppendAll(log: seq<Snapshot>, from: nat, errors: seq<string>, snaps: seq<Snapshot>)
    requires ErrorsGrow(log, from, errors) && from <= |log|
    requires forall k :: 0 <= k < |snaps| ==> snaps[k].errors == errors
    ensures ErrorsGrow(log + snaps, from, errors)
    decreases |snaps|
  {
    if snaps != [] {
      var init := snaps[..|snaps| - 1];
      ErrorsGrowAppendAll(log, from, errors, init);
      ErrorsGrowAppend(log + init, from, errors, snaps[|snaps| - 1]);
      assert log + init + [snaps[|snaps| - 1]] == log + snaps;
    }
  }

  lemma {:induction false} StepsErrorsGrow(pending: seq<string>, outcomes: seq<FileOutcome>, proxies: map<string, string>,
                                           alreadyDone: int, total: int, st: RunState, from: nat)
    requires |outcomes| == |pending| && Named(pending)
    requires ErrorsGrow(st.log, from, st.errors) && from <= |st.log|
    ensures var r := Steps(pending, outcomes, proxies, alreadyDone, total, st);
      ErrorsGrow(r.log, from, r.errors) && |st.log| <= |r.log|
    decreases |pending|
  {
    if pending != [] {
      var n := |pending| - 1;
      StepsErrorsGrow(pending[..n], outcomes[..n], proxies, alreadyDone, total, st, from);
      var prev := Steps(pending[..n], outcomes[..n], proxies, alreadyDone, total, st);
      FileStepErrorsGrow(n, pending[n], outcomes[n], proxies, alreadyDone, total, prev, from);
      FileStepProgress(n, pending[n], outcomes[n], proxies, alreadyDone, total, prev);
    }
  }

  // ---------------------------------------------------------------------------
  // The whole worker
  // ---------------------------------------------------------------------------

  /** What the worker learns from outside for one run. */
  datatype Inputs = Inputs(
    pendingVideos: seq<string>,            // videos without a sidecar, as listed at the start
    pendingAudio: seq<string>,             // audio files without a sidecar
    videoCount: nat, audioCount: nat,      // all media files in the folder
    envs: seq<Transcode.Environment>,      // what transcoding meets for each pending video
    order: seq<nat>,                       // the order in which the transcodes finish
    outcomes: seq<FileOutcome>,            // upload and analysis outcome of each pending file
    remainingVideos: nat, remainingAudio: nat) // lengths of the pending listings taken again at the end

  predicate WellFormed(x: Inputs) {
    && |x.envs| == |x.pendingVideos| && IsCompletionOrder(x.order, |x.pendingVideos|)
    && |x.outcomes| == |x.pendingVideos| + |x.pendingAudio|
    && Named(x.pendingVideos + x.pendingAudio)
    && ParsedRecordsCanonical(x.outcomes)
  }

  /** Every record the analysis returns has canonical keys. */
  predicate ParsedRecordsCanonical(outcomes: seq<FileOutcome>) {
    forall k :: 0 <= k < |outcomes| && outcomes[k].analysis.AnalysisParsed? ==> CanonicalRecord(outcomes[k].analysis.record)
  }

  /** All sidecars of a folder have canonical keys. */
  predicate SidecarsCanonical(sidecars: map<string, Record>) {
    forall p | p in sidecars :: CanonicalRecord(sidecars[p])
  }

  /** The per-file loop writes only canonical sidecars. */
  lemma {:induction false} StepsCanonical(pending: seq<string>, outcomes: seq<FileOutcome>, proxies: map<string, string>,
                                          alreadyDone: int, total: int, st: RunState)
    requires |outcomes| == |pending| && Named(pending)
    requires ParsedRecordsCanonical(outcomes) && SidecarsCanonical(st.sidecars)
    ensures SidecarsCanonical(Steps(pending, outcomes, proxies, alreadyDone, total, st).sidecars)
    decreases |pending|
  {
    if pending != [] {
      var n := |pending| - 1;
      assert ParsedRecordsCanonical(outcomes[..n]) by {
        forall k | 0 <= k < n && outcomes[..n][k].analysis.AnalysisParsed?
          ensures CanonicalRecord(outcomes[..n][k].analysis.record)
        {
          assert outcomes[..n][k] == outcomes[k];
        }
      }
      StepsCanonical(pending[..n], outcomes[..n], proxies, alreadyDone, total, st);
      var prev := Steps(pending[..n], outcomes[..n], proxies, alreadyDone, total, st);
      FileStepCanonical(n, pending[n], outcomes[n], proxies, alreadyDone, total, prev);
    }
  }

  lemma FileStepCanonical(i: int, media: string, o: FileOutcome, proxies: map<string, string>, alreadyDone: int, total: int, st: RunState)
    requires PurePath.HasName(media)
    requires o.analysis.AnalysisParsed? ==> CanonicalRecord(o.analysis.record)
    requires SidecarsCanonical(st.sidecars)
    ensures SidecarsCanonical(FileStep(i, media, o, proxies, alreadyDone, total, st).sidecars)
  {
    FileStepEffect(i, media, o, proxies, alreadyDone, total, st);
    if Succeeds(o) {
      FinaliseCanonical(o.analysis.record, media, IsAudio(media), o.probeFps, o.probeDuration);
    }
  }

  /** A run that starts from canonical sidecars ends with canonical sidecars. */
  lemma IngestCanonical(init: RunState, x: Inputs)
    requires WellFormed(x) && SidecarsCanonical(init.sidecars)
    ensures SidecarsCanonical(Ingest(init, x).sidecars)
  {
    var batched := AfterTranscode(init, x);
    assert batched.sidecars == init.sidecars;
    StepsCanonical(x.pendingVideos + x.pendingAudio, x.outcomes, Proxies(Finished(x.pendingVideos, x.envs, x.order)),
                   AlreadyDone(x), Total(x), batched);
  }

  function Total(x: Inputs): int {
    x.videoCount + x.audioCount
  }

  function AlreadyDone(x: Inputs): int {
    Total(x) - |x.pendingVideos| - |x.pendingAudio|
  }

  function StartSnapshot(x: Inputs): Snapshot {
    Snapshot(Running, TranscodeStart(|x.pendingVideos|), Transcoding, AlreadyDone(x), Total(x), [])
  }

  /** The state after phase 1: a fresh error list, the first snapshot, the transcode fold. */
  function AfterTranscode(init: RunState, x: Inputs): RunState
    requires WellFormed(x)
  {
    BatchState(Finished(x.pendingVideos, x.envs, x.order), |x.pendingVideos|, AlreadyDone(x), Total(x),
               init.(errors := [], log := init.log + [StartSnapshot(x)]))
  }

  /** The state after phase 2, before the final snapshot. */
  function AfterFiles(init: RunState, x: Inputs): RunState
    requires WellFormed(x)
  {
    Steps(x.pendingVideos + x.pendingAudio, x.outcomes, Proxies(Finished(x.pendingVideos, x.envs, x.order)),
          AlreadyDone(x), Total(x), AfterTranscode(init, x))
  }

  lemma AfterTranscodeIs(init: RunState, x: Inputs, st: RunState)
    requires WellFormed(x)
    requires st == BatchState(Finished(x.pendingVideos, x.envs, x.order), |x.pendingVideos|, AlreadyDone(x), Total(x),
                              init.(errors := [], log := init.log + [StartSnapshot(x)]))
    ensures st == AfterTranscode(init, x)
  {
  }

  lemma AfterFilesIs(init: RunState, x: Inputs, transcoded: RunState, st: RunState)
    requires WellFormed(x) && transcoded == AfterTranscode(init, x)
    requires st == Steps(x.pendingVideos + x.pendingAudio, x.outcomes, Proxies(Finished(x.pendingVideos, x.envs, x.order)),
                         AlreadyDone(x), Total(x), transcoded)
    ensures st == AfterFiles(init, x)
  {
  }

  lemma FinishIs(files: RunState, x: Inputs, st: RunState, doneCount: int, total: int)
    requires total == Total(x) && doneCount == Total(x) - x.remainingVideos - x.remainingAudio
    requires st == files.(log := files.log + [Snapshot(Complete, NoFile, NoStep, doneCount, total, files.errors)])
    ensures st == Finish(files, x)
  {
  }

  /** `_ingest_worker` from the state `init`. */
  function Ingest(init: RunState, x: Inputs): RunState
    requires WellFormed(x)
  {
    Finish(AfterFiles(init, x), x)
  }

  /** The last snapshot: `complete`, counting the total minus the pending listings taken again at the end. */
  function Finish(st: RunState, x: Inputs): RunState {
    st.(log := st.log + [Snapshot(Complete, NoFile, NoStep, Total(x) - x.remainingVideos - x.remainingAudio, Total(x), st.errors)])
  }

  lemma FinishLog(st: RunState, x: Inputs)
    ensures Finish(st, x).errors == st.errors
    ensures Finish(st, x).log
         == st.log + [Snapshot(Complete, NoFile, NoStep, Total(x) - x.remainingVideos - x.remainingAudio, Total(x), st.errors)]
  {
  }

  /**
   * The run's last snapshot is `complete` with the final error list, its first is the
   * transcoding start with no errors, and every snapshot of the run holds a prefix of every
   * later one's errors: errors are only ever appended.
   */
  lemma IngestProgress(init: RunState, x: Inputs)
    requires WellFormed(x)
    ensures var r := Ingest(init, x);
      && |init.log| < |r.log| && r.log[..|init.log|] == init.log
      && r.log[|init.log|] == StartSnapshot(x)
      && r.log[|r.log| - 1].status == Complete
      && r.log[|r.log| - 1].errors == r.errors
      && r.log[|r.log| - 1].completed == Total(x) - x.remainingVideos - x.remainingAudio
      && (forall k :: |init.log| <= k < |r.log| - 1 ==> r.log[k].status == Running)
      && ErrorsGrow(r.log, |init.log|, r.errors)
  {
    var files := AfterFiles(init, x);
    var r := Ingest(init, x);
    var last := Snapshot(Complete, NoFile, NoStep, Total(x) - x.remainingVideos - x.remainingAudio, Total(x), files.errors);
    assert r == Finish(files, x);
    FinishLog(files, x);
    PhasesKeepLog(init, x);
    PhasesRunning(init, x);
    PhasesErrorsGrow(init, x);
    FinalLog(init.log, StartSnapshot(x), files.log, files.errors, last);
  }

  /** Both phases keep the earlier log and start with the transcoding snapshot. */
  lemma PhasesKeepLog(init: RunState, x: Inputs)
    requires WellFormed(x)
    ensures var f := AfterFiles(init, x);
      |init.log| < |f.log| && f.log[..|init.log| + 1] == init.log + [StartSnapshot(x)]
  {
    var st0 := init.(errors := [], log := init.log + [StartSnapshot(x)]);
    var rs := Finished(x.pendingVideos, x.envs, x.order);
    var batched := AfterTranscode(init, x);
    var files := AfterFiles(init, x);
    assert batched == BatchState(rs, |x.pendingVideos|, AlreadyDone(x), Total(x), st0);
    assert files == Steps(x.pendingVideos + x.pendingAudio, x.outcomes, Proxies(rs), AlreadyDone(x), Total(x), batched);
    StepsKeepLog(x.pendingVideos + x.pendingAudio, x.outcomes, Proxies(rs), AlreadyDone(x), Total(x), batched);
    PrefixChain(st0.log, batched.log, files.log);
  }

  /** Every snapshot the two phases write is `running`. */
  lemma PhasesRunning(init: RunState, x: Inputs)
    requires WellFormed(x)
    ensures AllRunning(AfterFiles(init, x).log, |init.log|)
  {
    var st0 := init.(errors := [], log := init.log + [StartSnapshot(x)]);
    var rs := Finished(x.pendingVideos, x.envs, x.order);
    var batched := AfterTranscode(init, x);
    assert batched == BatchState(rs, |x.pendingVideos|, AlreadyDone(x), Total(x), st0);
    assert AfterFiles(init, x) == Steps(x.pendingVideos + x.pendingAudio, x.outcomes, Proxies(rs), AlreadyDone(x), Total(x), batched);
    BatchRunning(rs, |x.pendingVideos|, AlreadyDone(x), Total(x), st0, |init.log|);
    StepsRunning(x.pendingVideos + x.pendingAudio, x.outcomes, Proxies(rs), AlreadyDone(x), Total(x), batched, |init.log|);
  }

  /** Across the two phases the error list only grows. */
  lemma PhasesErrorsGrow(init: RunState, x: Inputs)
    requires WellFormed(x)
    ensures var f := AfterFiles(init, x); ErrorsGrow(f.log, |init.log|, f.errors)
  {
    var rs := Finished(x.pendingVideos, x.envs, x.order);
    var batched := AfterTranscode(init, x);
    assert AfterFiles(init, x) == Steps(x.pendingVideos + x.pendingAudio, x.outcomes, Proxies(rs), AlreadyDone(x), Total(x), batched);
    TranscodeErrorsGrow(init, x);
    StepsErrorsGrow(x.pendingVideos + x.pendingAudio, x.outcomes, Proxies(rs), AlreadyDone(x), Total(x), batched, |init.log|);
  }

  lemma TranscodeErrorsGrow(init: RunState, x: Inputs)
    requires WellFormed(x)
    ensures var b := AfterTranscode(init, x); ErrorsGrow(b.log, |init.log|, b.errors) && |init.log| <= |b.log|
  {
    var st0 := init.(errors := [], log := init.log + [StartSnapshot(x)]);
    var rs := Finished(x.pendingVideos, x.envs, x.order);
    assert AfterTranscode(init, x) == BatchState(rs, |x.pendingVideos|, AlreadyDone(x), Total(x), st0);
    ErrorsGrowStart(init.log, StartSnapshot(x));
    BatchErrorsGrow(rs, |x.pendingVideos|, AlreadyDone(x), Total(x), st0, |init.log|);
  }

  /** A log whose only snapshot from `|earlier|` on has no errors. */
  lemma ErrorsGrowStart(earlier: seq<Snapshot>, s: Snapshot)
    requires s.errors == []
    ensures ErrorsGrow(earlier + [s], |earlier|, [])
  {
    assert (earlier + [s])[|earlier|] == s;
  }

  lemma PrefixChain(a: seq<Snapshot>, b: seq<Snapshot>, c: seq<Snapshot>)
    requires |a| <= |b| <= |c| && b[..|a|] == a && c[..|b|] == b
    ensures c[..|a|] == a
  {
    assert c[..|a|] == c[..|b|][..|a|];
  }

  /** Appending the `complete` snapshot to the phases' log. */
  lemma FinalLog(earlier: seq<Snapshot>, start: Snapshot, log: seq<Snapshot>, errors: seq<string>, last: Snapshot)
    requires |earlier| < |log| && log[..|earlier| + 1] == earlier + [start]
    requires AllRunning(log, |earlier|) && ErrorsGrow(log, |earlier|, errors) && last.errors == errors
    ensures var l := log + [last];
      && l[..|earlier|] == earlier && l[|earlier|] == start && l[|l| - 1] == last
      && (forall k :: |earlier| <= k < |l| - 1 ==> l[k].status == Running)
      && ErrorsGrow(l, |earlier|, errors)
  {
    var l := log + [last];
    assert l[..|earlier|] == log[..|earlier| + 1][..|earlier|];
    assert l[|earlier|] == log[..|earlier| + 1][|earlier|];
    forall k | |earlier| <= k < |l| - 1
      ensures l[k].status == Running
    {
      assert l[k] == log[k];
    }
    ErrorsGrowAppend(log, |earlier|, errors, last);
  }

  /** All snapshots from `from` on are `running`. */
  predicate AllRunning(log: seq<Snapshot>, from: nat) {
    forall k :: from <= k < |log| ==> log[k].status == Running
  }

  lemma {:induction false} BatchRunning(rs: seq<TranscodeResult>, n: nat, alreadyDone: int, total: int, st: RunState, from: nat)
    requires AllRunning(st.log, from)
    ensures AllRunning(BatchState(rs, n, alreadyDone, total, st).log, from)
    decreases |rs|
  {
    if rs != [] {
      BatchRunning(rs[..|rs| - 1], n, alreadyDone, total, st, from);
    }
  }

  lemma {:induction false} StepsRunning(pending: seq<string>, outcomes: seq<FileOutcome>, proxies: map<string, string>,
                                        alreadyDone: int, total: int, st: RunState, from: nat)
    requires |outcomes| == |pending| && Named(pending)
    requires AllRunning(st.log, from)
    ensures AllRunning(Steps(pending, outcomes, proxies, alreadyDone, total, st).log, from)
    decreases |pending|
  {
    if pending != [] {
      var n := |pending| - 1;
      StepsRunning(pending[..n], outcomes[..n], proxies, alreadyDone, total, st, from);
      var prev := Steps(pending[..n], outcomes[..n], proxies, alreadyDone, total, st);
      var r := Steps(pending, outcomes, proxies, alreadyDone, total, st);
      assert r == FileStep(n, pending[n], outcomes[n], proxies, alreadyDone, total, prev);
      FileStepProgress(n, pending[n], outcomes[n], proxies, alreadyDone, total, prev);
      RunningExtend(prev.log, r.log, from);
    }
  }

  /** A log that extends an all-`running` log by `running` snapshots is all `running`. */
  lemma RunningExtend(prev: seq<Snapshot>, log: seq<Snapshot>, from: nat)
    requires AllRunning(prev, from) && |prev| <= |log| && log[..|prev|] == prev
    requires forall k :: |prev| <= k < |log| ==> log[k].status == Running
    ensures AllRunning(log, from)
  {
    forall k | from <= k < |log|
      ensures log[k].status == Running
    {
      if k < |prev| {
        assert log[k] == prev[k];
      }
    }
  }

  lemma {:induction false} StepsKeepLog(pending: seq<string>, outcomes: seq<FileOutcome>, proxies: map<string, string>,
                                        alreadyDone: int, total: int, st: RunState)
    requires |outcomes| == |pending| && Named(pending)
    ensures var r := Steps(pending, outcomes, proxies, alreadyDone, total, st);
      |st.log| <= |r.log| && r.log[..|st.log|] == st.log
    decreases |pending|
  {
    if pending != [] {
      var n := |pending| - 1;
      StepsKeepLog(pending[..n], outcomes[..n], proxies, alreadyDone, total, st);
      var prev := Steps(pending[..n], outcomes[..n], proxies, alreadyDone, total, st);
      FileStepProgress(n, pending[n], outcomes[n], proxies, alreadyDone, total, prev);
    }
  }

  // ---------------------------------------------------------------------------
  // The worker as a class over the mutable state
  // ---------------------------------------------------------------------------

  class IngestRun {
    /** The error list shared by both phases. */
    var errors: seq<string>
    /** Every progress write, oldest first. */
    ghost var progress: seq<Snapshot>
    /** The sidecar files of the folder, by path. */
    var sidecars: map<string, Record>
    /** The paths handed to the upload call, in order. */
    ghost var uploads: seq<string>

    ghost function State(): RunState
      reads this
    {
      RunState(errors, progress, sidecars, uploads)
    }

    /** A folder whose existing sidecars are `existing`. */
    constructor (existing: map<string, Record>)
      ensures State() == RunState([], [], existing, [])
    {
      errors := [];
      progress := [];
      sidecars := existing;
      uploads := [];
    }

    /** `_write_progress`: the progress file takes a snapshot of the counters and of the errors so far. */
    method WriteProgress(status: Status, currentFile: FileLabel, currentStep: Step, completed: int, total: int)
      modifies this
      ensures State() == old(State()).(log := old(progress) + [Snapshot(status, currentFile, currentStep, completed, total, errors)])
    {
      progress := progress + [Snapshot(status, currentFile, currentStep, completed, total, errors)];
    }

    /**
     * `_batch_transcode`: fold the transcode results, in the order they finish, into the proxy
     * map and the error list, writing progress after each.
     */
    method BatchTranscode(finished: seq<TranscodeResult>, alreadyDone: int, total: int) returns (proxies: map<string, string>)
      modifies this
      ensures proxies == Proxies(finished)
      ensures State() == BatchState(finished, |finished|, alreadyDone, total, old(State()))
    {
      proxies := map[];
      var doneCount := 0;
      while doneCount < |finished|
        invariant 0 <= doneCount <= |finished|
        invariant proxies == Proxies(finished[..doneCount])
        invariant State() == BatchState(finished[..doneCount], |finished|, alreadyDone, total, old(State()))
      {
        var result := finished[doneCount];
        BatchSnoc(finished, doneCount, |finished|, alreadyDone, total, old(State()));
        ghost var before := State();
        doneCount := doneCount + 1;
        if result.error.Some? && result.error.value != [] {
          RecordError(result.original, result.error.value);
        } else if result.proxy.Some? {
          proxies := proxies[PurePath.Name(result.original) := result.proxy.value];
        }
        ghost var recorded := State();
        WriteProgress(Running, TranscodeProgress(doneCount, |finished|), Transcoding, alreadyDone, total);
        TranscodeStepIs(result, doneCount, |finished|, alreadyDone, total, before, recorded, State());
      }
      assert finished[..doneCount] == finished;
    }

    /** One iteration of the per-file loop. */
    method ProcessFile(i: int, media: string, outcome: FileOutcome, proxies: map<string, string>, alreadyDone: int, total: int)
      requires PurePath.HasName(media)
      modifies this
      ensures State() == FileStep(i, media, outcome, proxies, alreadyDone, total, old(State()))
    {
      ghost var st := State();
      var name := PurePath.Name(media);
      WriteProgress(Running, MediaName(name), Uploading, alreadyDone + i, total);
      assert progress == st.log + [UploadingSnapshot(i, media, alreadyDone, total, st.errors)];
      var uploadPath := UploadPath(media, proxies);
      uploads := uploads + [uploadPath];
      ghost var uploading := State();
      assert uploading == st.(log := st.log + [UploadingSnapshot(i, media, alreadyDone, total, st.errors)],
                              uploads := st.uploads + [UploadPath(media, proxies)]);
      match outcome.upload {
        case UploadRaised(message) =>
          RecordError(media, message);
        case UploadSettled(state) =>
          if state != Active {
            RecordError(media, "upload state=" + StateName(state));
          } else {
            AnalyseFile(i, media, outcome, alreadyDone, total);
          }
      }
      FileStepIs(i, media, outcome, proxies, alreadyDone, total, st, uploading, State());
    }

    /** The part of the iteration after an active upload. */
    method AnalyseFile(i: int, media: string, outcome: FileOutcome, alreadyDone: int, total: int)
      requires PurePath.HasName(media)
      modifies this
      ensures State() == AnalysisStep(i, media, outcome, alreadyDone, total, old(State()))
    {
      ghost var st := State();
      var name := PurePath.Name(media);
      WriteProgress(Running, MediaName(name), Analyzing, alreadyDone + i, total);
      assert progress == st.log + [AnalyzingSnapshot(i, media, alreadyDone, total, st.errors)];
      assert uploads == st.uploads;
      match outcome.analysis {
        case AnalysisRaised(message) =>
          RecordError(media, message);
        case AnalysisParsed(record) =>
          if outcome.finishError.Some? {
            RecordError(media, outcome.finishError.value);
          } else {
            StoreSidecar(media, record, outcome.probeFps, outcome.probeDuration);
          }
      }
      AnalysisStepIs(i, media, outcome, alreadyDone, total, st, State());
    }

    /** The `except` clause of the loop: the file's error line is appended. */
    method RecordError(media: string, message: string)
      modifies this
      ensures State() == old(State()).(errors := old(errors) + [ErrorEntry(media, message)])
    {
      errors := errors + [ErrorEntry(media, message)];
    }

    /** The stamped record is written next to the media file. */
    method StoreSidecar(media: string, record: Record, fps: Option<real>, duration: Option<real>)
      requires PurePath.HasName(media)
      modifies this
      ensures State() == old(State()).(sidecars := old(sidecars)[SidecarPath(media) := Finalise(record, media, IsAudio(media), fps, duration)])
    {
      sidecars := sidecars[SidecarPath(media) := Finalise(record, media, IsAudio(media), fps, duration)];
    }

    /** The per-file loop over all pending files. */
    method ProcessAll(pending: seq<string>, outcomes: seq<FileOutcome>, proxies: map<string, string>, alreadyDone: int, total: int)
      requires |outcomes| == |pending| && Named(pending)
      modifies this
      ensures State() == Steps(pending, outcomes, proxies, alreadyDone, total, old(State()))
    {
      var i := 0;
      while i < |pending|
        invariant 0 <= i <= |pending|
        invariant State() == Steps(pending[..i], outcomes[..i], proxies, alreadyDone, total, old(State()))
      {
        StepsSnoc(pending, outcomes, proxies, alreadyDone, total, old(State()), i);
        ProcessFile(i, pending[i], outcomes[i], proxies, alreadyDone, total);
        i := i + 1;
      }
      assert pending[..i] == pending && outcomes[..i] == outcomes;
    }

    /** `_ingest_worker`: both phases and the final `complete` snapshot. */
    method Run(x: Inputs)
      requires WellFormed(x)
      modifies this
      ensures State() == Ingest(old(State()), x)
    {
      var total := x.videoCount + x.audioCount;
      var alreadyDone := total - |x.pendingVideos| - |x.pendingAudio|;
      assert total == Total(x) && alreadyDone == AlreadyDone(x);
      errors := [];
      WriteProgress(Running, TranscodeStart(|x.pendingVideos|), Transcoding, alreadyDone, total);
      // The thread pool: every pending video transcoded, the results arriving in `x.order`.
      var finished := Finished(x.pendingVideos, x.envs, x.order);
      var proxies := BatchTranscode(finished, alreadyDone, total);
      ghost var transcoded := State();
      assert finished == Finished(x.pendingVideos, x.envs, x.order);
      AfterTranscodeIs(old(State()), x, transcoded);
      ProcessAll(x.pendingVideos + x.pendingAudio, x.outcomes, proxies, alreadyDone, total);
      AfterFilesIs(old(State()), x, transcoded, State());
      var doneCount := total - x.remainingVideos - x.remainingAudio;
      assert doneCount == Total(x) - x.remainingVideos - x.remainingAudio;
      ghost var files := State();
      WriteProgress(Complete, NoFile, NoStep, doneCount, total);
      FinishIs(files, x, State(), doneCount, total);
    }
  }
}
