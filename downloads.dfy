/** The three download entry points and the per-URL loop they share. */
module Downloads {
  import opened Wrappers
  import opened Metadata
  import opened Profiles
  import opened Validation
  import opened History
  import opened Fallback

  /** Everything a download loop fixes before its first URL. */
  datatype Job = Job(
    mode: Mode,
    outputDir: string,
    verbose: bool,
    profiles: seq<Profile>,
    noplaylist: bool,
    merge: Option<string>,
    postprocessors: Option<seq<Postprocessor>>,
    style: string,
    videoQuality: Option<string>,
    audioQualityKbps: Option<int>,
    forceExt: Option<string>)

  /** The reading of `datetime.now(timezone.utc).isoformat()` taken for the n-th attempted URL. */
  type Clock = nat -> string

  /** How one URL of the job ends. */
  function Attempt(engine: Engine, job: Job, url: string): Result<Info, Failure> {
    SingleUrlResult(engine, url, job.outputDir, job.verbose, job.profiles, job.noplaylist, job.merge,
                    job.postprocessors, job.style)
  }

  /** The arguments of the history record for one URL: the info on success, the message on failure. */
  function RecordArgs(job: Job, url: string, stamp: string, result: Result<Info, Failure>): EntryArgs {
    EntryArgs(
      stamp, job.mode, url, if result.Ok? then Success else Failed, job.outputDir,
      if result.Ok? then Some(result.value) else None,
      if result.Ok? then None else Some(FailureMessage(result.error)),
      job.videoQuality, job.audioQualityKbps, job.style, job.forceExt)
  }

  /** How each URL of the job would end, were every one of them tried. */
  function Results(engine: Engine, job: Job, urls: seq<string>): (results: seq<Result<Info, Failure>>)
    ensures |results| == |urls|
  {
    if urls == [] then [] else [Attempt(engine, job, urls[0])] + Results(engine, job, urls[1..])
  }

  /** The k-th result is the k-th URL's download. */
  lemma {:induction false} ResultAt(engine: Engine, job: Job, urls: seq<string>, k: nat)
    requires k < |urls|
    ensures Results(engine, job, urls)[k] == Attempt(engine, job, urls[k])
  {
    if k > 0 {
      ResultAt(engine, job, urls[1..], k - 1);
    }
  }

  /** The index of the first failed result, or the number of results. */
  function FirstFailure<T, E>(results: seq<Result<T, E>>): (i: nat)
    ensures i <= |results|
    ensures forall k :: 0 <= k < i ==> results[k].Ok?
    ensures i < |results| ==> results[i].Err?
  {
    if results == [] || results[0].Err? then 0 else 1 + FirstFailure(results[1..])
  }

  /** How many URLs the loop attempts: all of them, or up to and including the first failure. */
  function AttemptedCount<T, E>(results: seq<Result<T, E>>): (n: nat)
    ensures n <= |results|
  {
    var i := FirstFailure(results);
    if i < |results| then i + 1 else i
  }

  /** The records a run of the loop appends, one per attempted URL. */
  function BatchRecords(job: Job, urls: seq<string>, results: seq<Result<Info, Failure>>, clock: Clock)
    : (records: seq<HistoryEntry>)
    requires |results| == |urls|
    ensures |records| == AttemptedCount(results)
  {
    var n := AttemptedCount(results);
    seq(n, k requires 0 <= k < n => HistoryRecord(RecordArgs(job, urls[k], clock(k), results[k])))
  }

  /** How a download function returns: `0`, or the first failure re-raised. */
  function BatchResult(results: seq<Result<Info, Failure>>): Result<int, Failure> {
    var i := FirstFailure(results);
    if i < |results| then Err(results[i].error) else Ok(0)
  }

  /** One pass of the loop body: download the URL, then append its success or failure record. */
  method AttemptUrl(engine: Engine, history: HistoryFile, job: Job, url: string, stamp: string)
    returns (result: Result<Info, Failure>)
    modifies history
    ensures result == Attempt(engine, job, url)
    ensures history.Read() == old(history.Read()) + [HistoryRecord(RecordArgs(job, url, stamp, result))]
  {
    ghost var tried;
    result, tried := DownloadSingleUrlWithFallback(engine, url, job.outputDir, job.verbose, job.profiles,
                                                   job.noplaylist, job.merge, job.postprocessors, job.style);
    var entry := BuildHistoryEntry(RecordArgs(job, url, stamp, result));
    history.Append(entry);
  }

  /** Where the loop stands after a failure at URL k: it was the first, and the run ends there. */
  lemma EndsAtFailure<T, E>(results: seq<Result<T, E>>, k: nat)
    requires k < |results| && k <= FirstFailure(results) && results[k].Err?
    ensures FirstFailure(results) == k && AttemptedCount(results) == k + 1
  {}

  /** A run with no failure attempts every URL and returns 0. */
  lemma AllPass(results: seq<Result<Info, Failure>>)
    requires FirstFailure(results) == |results|
    ensures AttemptedCount(results) == |results| && BatchResult(results) == Ok(0)
  {}

  /** A URL the run reaches is one it attempts. */
  lemma PassesOrEnds<T, E>(results: seq<Result<T, E>>, k: nat)
    requires k < |results| && k <= FirstFailure(results)
    ensures k < AttemptedCount(results)
  {}

  /** A success at URL k moves past it. */
  lemma PassesSuccess<T, E>(results: seq<Result<T, E>>, k: nat)
    requires k < |results| && k <= FirstFailure(results) && results[k].Ok?
    ensures k + 1 <= FirstFailure(results)
  {}

  /** The k-th stored record is the k-th URL's entry. */
  lemma RecordAt(job: Job, urls: seq<string>, results: seq<Result<Info, Failure>>, clock: Clock, k: nat)
    requires |results| == |urls| && k < AttemptedCount(results)
    ensures BatchRecords(job, urls, results, clock)[k] == HistoryRecord(RecordArgs(job, urls[k], clock(k), results[k]))
  {}

  /** One turn of the loop: URL k is downloaded and its record is the next one of the run. */
  method BatchStep(engine: Engine, history: HistoryFile, job: Job, urls: seq<string>, clock: Clock, k: nat,
                   ghost before: seq<HistoryEntry>)
    returns (result: Result<Info, Failure>)
    modifies history
    requires k < |urls| && k <= FirstFailure(Results(engine, job, urls))
    requires history.Read() == before + BatchRecords(job, urls, Results(engine, job, urls), clock)[..k]
    ensures result == Results(engine, job, urls)[k]
    ensures history.Read() == before + BatchRecords(job, urls, Results(engine, job, urls), clock)[..k + 1]
    ensures result.Err? ==> FirstFailure(Results(engine, job, urls)) == k
    ensures result.Err? ==> AttemptedCount(Results(engine, job, urls)) == k + 1
    ensures result.Err? ==> BatchResult(Results(engine, job, urls)) == Err(result.error)
    ensures result.Err? ==> history.Read() == before + BatchRecords(job, urls, Results(engine, job, urls), clock)
    ensures result.Ok? ==> k + 1 <= FirstFailure(Results(engine, job, urls))
  {
    ghost var results := Results(engine, job, urls);
    ghost var records := BatchRecords(job, urls, results, clock);
    result := AttemptUrl(engine, history, job, urls[k], clock(k));
    ResultAt(engine, job, urls, k);
    PassesOrEnds(results, k);
    RecordAt(job, urls, results, clock, k);
    ExtendStep(before, records, k, HistoryRecord(RecordArgs(job, urls[k], clock(k), result)));
    if result.Err? {
      EndsAtFailure(results, k);
      WholePrefix(records, k + 1);
    } else {
      PassesSuccess(results, k);
    }
  }

  /**
   * The `for url in urls` loop of the three download functions: download, append
   * the record, and on a failure append a failed record and re-raise. The ghost
   * `attempted` lists the URLs handed to the engine.
   */
  method RunBatch(engine: Engine, history: HistoryFile, job: Job, urls: seq<string>, clock: Clock)
    returns (r: Result<int, Failure>, ghost attempted: seq<string>)
    modifies history
    ensures history.Read() == old(history.Read()) + BatchRecords(job, urls, Results(engine, job, urls), clock)
    ensures r == BatchResult(Results(engine, job, urls))
    ensures attempted == urls[..AttemptedCount(Results(engine, job, urls))]
  {
    attempted := [];
    ghost var before := history.Read();
    ghost var results := Results(engine, job, urls);
    ghost var records := BatchRecords(job, urls, results, clock);
    ghost var stop := FirstFailure(results);
    var k := 0;
    while k < |urls|
      invariant 0 <= k <= |urls| && k <= stop
      invariant attempted == urls[..k]
      invariant history.Read() == before + records[..k]
    {
      var result := BatchStep(engine, history, job, urls, clock, k, before);
      PrefixStep(urls, k);
      attempted := attempted + [urls[k]];
      if result.Err? {
        return Err(result.error), attempted;
      }
      k := k + 1;
    }
    AllPass(results);
    WholePrefix(records, k);
    WholePrefix(urls, k);
    return Ok(0), attempted;
  }

  // ----- What a run promises -----

  /** The k-th record of a run describes the k-th URL: success before the first failure, failed at it. */
  lemma BatchRecordOf(job: Job, urls: seq<string>, results: seq<Result<Info, Failure>>, clock: Clock, k: nat)
    requires |results| == |urls| && k < AttemptedCount(results)
    ensures var rec := BatchRecords(job, urls, results, clock)[k];
            var i := FirstFailure(results);
            && BaseKeys <= rec.Keys
            && rec["url"] == Json.JStr(urls[k])
            && rec["timestamp_utc"] == Json.JStr(clock(k))
            && (rec["status"] == Json.JStr("success") <==> k < i)
            && (k == i ==> rec["status"] == Json.JStr("failed"))
  {
    HistoryRecordBase(RecordArgs(job, urls[k], clock(k), results[k]));
  }

  /** A failed record carries the raised message under "error", unless that message is empty, and nothing from an info. */
  lemma FailedRecordCarriesError(job: Job, urls: seq<string>, results: seq<Result<Info, Failure>>, clock: Clock)
    requires |results| == |urls| && FirstFailure(results) < |urls|
    ensures var i := FirstFailure(results);
            var rec := BatchRecords(job, urls, results, clock)[i];
            var message := FailureMessage(results[i].error);
            && ("error" in rec <==> message != "")
            && (message != "" ==> rec["error"] == Json.JStr(message))
            && "output_file" !in rec && "video_id" !in rec && "title" !in rec
  {
    var i := FirstFailure(results);
    var a := RecordArgs(job, urls[i], clock(i), results[i]);
    HistoryRecordSettings(a);
    HistoryRecordInfo(a);
  }

  /** When every URL succeeds the run returns 0 and appends one record per URL. */
  lemma FullSuccess(results: seq<Result<Info, Failure>>)
    requires forall k :: 0 <= k < |results| ==> results[k].Ok?
    ensures BatchResult(results) == Ok(0)
    ensures AttemptedCount(results) == |results|
  {}

  /** A failure stops the run: the URLs after it are never attempted and its failure is raised. */
  lemma StopsAtFailure(results: seq<Result<Info, Failure>>, i: nat)
    requires i < |results| && results[i].Err?
    requires forall k :: 0 <= k < i ==> results[k].Ok?
    ensures AttemptedCount(results) == i + 1
    ensures BatchResult(results) == Err(results[i].error)
  {
    var j := FirstFailure(results);
    assert !(j < i);
  }

  // ----- The three entry points -----

  /** How an entry point ends unsuccessfully: refused input, or a URL's failure re-raised. */
  datatype RunError = Invalid(error: ValidationError) | Raised(failure: Failure)

  function Lift(r: Result<int, Failure>): Result<int, RunError> {
    if r.Ok? then Ok(r.value) else Err(Raised(r.error))
  }

  /** The job of `download_video` for a normalised height and style. */
  function VideoJob(outputDir: string, videoQuality: string, maxHeight: string, verbose: bool, style: string): Job {
    Job(Video, outputDir, verbose, VideoProfiles(maxHeight), false, Some("mp4"), None, style,
        Some(videoQuality), None, Some(".mp4"))
  }

  /** The job of `download_audio_as_mp3` (`Audio`) or `download_video_to_mp3` (`VideoToAudio`). */
  function AudioJob(mode: Mode, outputDir: string, qualityKbps: int, verbose: bool, style: string): Job {
    Job(mode, outputDir, verbose, AudioProfiles(), true, None, Some(Mp3Postprocessors(qualityKbps)), style,
        None, Some(qualityKbps), Some(".mp3"))
  }

  /** `download_video`: normalise the quality and the style, then run the loop with the video profiles. */
  method DownloadVideo(engine: Engine, history: HistoryFile, urls: seq<string>, outputDir: string,
                       videoQuality: string, verbose: bool, filenameStyle: string, clock: Clock)
    returns (r: Result<int, RunError>)
    modifies history
    ensures NormalizeVideoQuality(videoQuality).Err? ==>
              r == Err(Invalid(BadVideoQuality)) && history.Read() == old(history.Read())
    ensures NormalizeVideoQuality(videoQuality).Ok? && NormalizeFilenameStyle(filenameStyle).Err? ==>
              r == Err(Invalid(BadFilenameStyle)) && history.Read() == old(history.Read())
    ensures NormalizeVideoQuality(videoQuality).Ok? && NormalizeFilenameStyle(filenameStyle).Ok? ==>
              var job := VideoJob(outputDir, videoQuality, NormalizeVideoQuality(videoQuality).value, verbose,
                                  NormalizeFilenameStyle(filenameStyle).value);
              var results := Results(engine, job, urls);
              && r == Lift(BatchResult(results))
              && history.Read() == old(history.Read()) + BatchRecords(job, urls, results, clock)
  {
    var maxHeight := NormalizeVideoQuality(videoQuality);
    if maxHeight.Err? {
      return Err(Invalid(maxHeight.error));
    }
    var style := NormalizeFilenameStyle(filenameStyle);
    if style.Err? {
      return Err(Invalid(style.error));
    }
    var job := VideoJob(outputDir, videoQuality, maxHeight.value, verbose, style.value);
    var result, _ := RunBatch(engine, history, job, urls, clock);
    r := Lift(result);
  }

  /** `download_audio_as_mp3` and `download_video_to_mp3`: normalise the style, then run the loop with the audio profiles. */
  method DownloadAudio(engine: Engine, history: HistoryFile, mode: Mode, urls: seq<string>, outputDir: string,
                       qualityKbps: int, verbose: bool, filenameStyle: string, clock: Clock)
    returns (r: Result<int, RunError>)
    requires mode == Audio || mode == VideoToAudio
    modifies history
    ensures NormalizeFilenameStyle(filenameStyle).Err? ==>
              r == Err(Invalid(BadFilenameStyle)) && history.Read() == old(history.Read())
    ensures NormalizeFilenameStyle(filenameStyle).Ok? ==>
              var job := AudioJob(mode, outputDir, qualityKbps, verbose, NormalizeFilenameStyle(filenameStyle).value);
              var results := Results(engine, job, urls);
              && r == Lift(BatchResult(results))
              && history.Read() == old(history.Read()) + BatchRecords(job, urls, results, clock)
  {
    var style := NormalizeFilenameStyle(filenameStyle);
    if style.Err? {
      return Err(Invalid(style.error));
    }
    var job := AudioJob(mode, outputDir, qualityKbps, verbose, style.value);
    var result, _ := RunBatch(engine, history, job, urls, clock);
    r := Lift(result);
  }

  /** Every attempt of a video job merges into MP4, extracts nothing and leaves playlists allowed. */
  lemma VideoAttemptOptions(outtmpl: string, outputDir: string, videoQuality: string, maxHeight: string,
                            verbose: bool, style: string)
    ensures var job := VideoJob(outputDir, videoQuality, maxHeight, verbose, style);
            var opts := AttemptOptions(outtmpl, job.noplaylist, job.verbose, job.profiles, job.merge, job.postprocessors);
            && |opts| == 2
            && opts[0].format == VideoFormatForQuality(maxHeight) && opts[1].format == VideoFallbackFormat(maxHeight)
            && forall k :: 0 <= k < 2 ==>
                 opts[k].mergeOutputFormat == Some("mp4") && opts[k].postprocessors.None? && !opts[k].noplaylist
  {}

  /** Every attempt of an audio job extracts MP3 at the asked bitrate, merges nothing and refuses playlists. */
  lemma AudioAttemptOptions(outtmpl: string, mode: Mode, outputDir: string, qualityKbps: int, verbose: bool,
                            style: string)
    ensures var job := AudioJob(mode, outputDir, qualityKbps, verbose, style);
            var opts := AttemptOptions(outtmpl, job.noplaylist, job.verbose, job.profiles, job.merge, job.postprocessors);
            && |opts| == 2
            && forall k :: 0 <= k < 2 ==>
                 && opts[k].format == AudioProfiles()[k].format
                 && opts[k].mergeOutputFormat.None? && opts[k].noplaylist
                 && opts[k].postprocessors == Some([ExtractAudio("mp3", IntToString(qualityKbps))])
  {}

  /** The video records keep the quality as the caller wrote it, not the normalised height. */
  lemma VideoRecordsKeepRawQuality(urls: seq<string>, results: seq<Result<Info, Failure>>, outputDir: string,
                                   videoQuality: string, maxHeight: string, verbose: bool, style: string,
                                   clock: Clock, k: nat)
    requires |results| == |urls| && k < AttemptedCount(results)
    ensures var rec := BatchRecords(VideoJob(outputDir, videoQuality, maxHeight, verbose, style), urls, results, clock)[k];
            "video_quality" in rec && rec["video_quality"] == Json.JStr(videoQuality) && "audio_quality_kbps" !in rec
  {
    var job := VideoJob(outputDir, videoQuality, maxHeight, verbose, style);
    HistoryRecordSettings(RecordArgs(job, urls[k], clock(k), results[k]));
  }

  /** The audio records carry the bitrate and no video quality. */
  lemma AudioRecordsKeepBitrate(mode: Mode, urls: seq<string>, results: seq<Result<Info, Failure>>, outputDir: string,
                                qualityKbps: int, verbose: bool, style: string, clock: Clock, k: nat)
    requires |results| == |urls| && k < AttemptedCount(results)
    ensures var rec := BatchRecords(AudioJob(mode, outputDir, qualityKbps, verbose, style), urls, results, clock)[k];
            "audio_quality_kbps" in rec && rec["audio_quality_kbps"] == Json.JInt(qualityKbps) && "video_quality" !in rec
  {
    var job := AudioJob(mode, outputDir, qualityKbps, verbose, style);
    HistoryRecordSettings(RecordArgs(job, urls[k], clock(k), results[k]));
  }
}
