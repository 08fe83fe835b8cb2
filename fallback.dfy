/** `_download_single_url_with_fallback`: try the profiles in order until one does not fail with a download error. */
module Fallback {
  import opened Wrappers
  import opened Metadata
  import opened Profiles
  import opened Validation

  /** What one `extract_info` call does: return a value (a mapping or something else), or raise. */
  datatype Outcome =
    | Returned(info: Option<Info>)     // `None` when the value is not a mapping
    | DownloadFailure(message: string) // yt-dlp's `DownloadError`
    | OtherFailure(message: string)    // any other exception

  /** How one URL's download ends without an info mapping. */
  datatype Failure =
    | BadStyle(error: ValidationError) // `_outtmpl_for_style` refused the style
    | DownloadErr(message: string)     // the last `DownloadError`, re-raised
    | OtherErr(message: string)        // another exception, propagated at once
    | NoExplicitError                  // the profile list was empty

  /** `str(exc)` of the exception a failure raises. */
  function FailureMessage(f: Failure): string {
    match f
    case BadStyle(e) => Message(e)
    case DownloadErr(m) => m
    case OtherErr(m) => m
    case NoExplicitError => "Download failed with no explicit error"
  }

  /** The empty mapping that stands in for a value that is not one. */
  const EmptyInfo: Info := Info(Missing, Missing, Missing, Missing, Absent, Absent, false)

  /** The download engine: what `extract_info(url, download=True)` does under the given options. */
  type Engine = (string, YdlOptions) -> Outcome

  /** The options of each attempt, one per profile. */
  function AttemptOptions(outtmpl: string, noplaylist: bool, verbose: bool, profiles: seq<Profile>,
                          merge: Option<string>, postprocessors: Option<seq<Postprocessor>>): (opts: seq<YdlOptions>)
    ensures |opts| == |profiles|
    ensures forall k :: 0 <= k < |opts| ==> opts[k] == BuildOptions(outtmpl, noplaylist, verbose, profiles[k], merge, postprocessors)
  {
    seq(|profiles|, k requires 0 <= k < |profiles| => BuildOptions(outtmpl, noplaylist, verbose, profiles[k], merge, postprocessors))
  }

  /** Every attempt of one chain carries the same settings; only the profile's format and client change. */
  lemma AttemptsDifferOnlyByProfile(outtmpl: string, noplaylist: bool, verbose: bool, profiles: seq<Profile>,
                                    merge: Option<string>, postprocessors: Option<seq<Postprocessor>>, j: nat, k: nat)
    requires j < |profiles| && k < |profiles|
    ensures var opts := AttemptOptions(outtmpl, noplaylist, verbose, profiles, merge, postprocessors);
            && opts[j].(format := profiles[k].format, playerClient := profiles[k].playerClient) == opts[k]
            && (opts[j] == opts[k] <==> profiles[j] == profiles[k])
  {
    OptionsDifferOnlyByProfile(outtmpl, noplaylist, verbose, profiles[j], profiles[k], merge, postprocessors);
  }

  /** The index of the first outcome that is not a download error, or the number of outcomes. */
  function FirstDecisive(outcomes: seq<Outcome>): (i: nat)
    ensures i <= |outcomes|
    ensures forall k :: 0 <= k < i ==> outcomes[k].DownloadFailure?
    ensures i < |outcomes| ==> !outcomes[i].DownloadFailure?
  {
    if outcomes == [] || !outcomes[0].DownloadFailure? then 0 else 1 + FirstDecisive(outcomes[1..])
  }

  /** How many engine calls the chain makes: up to and including the first decisive one. */
  function AttemptCount(outcomes: seq<Outcome>): nat {
    var i := FirstDecisive(outcomes);
    if i < |outcomes| then i + 1 else i
  }

  /** The result of the chain over the outcomes of the profiles, read off the first decisive outcome. */
  function ChainResult(outcomes: seq<Outcome>): (r: Result<Info, Failure>)
    ensures r == Err(NoExplicitError) <==> outcomes == []
    ensures r.Err? ==> !r.error.BadStyle?
    ensures r.Ok? ==> exists i :: 0 <= i < |outcomes| && outcomes[i].Returned?
    ensures r.Err? && r.error.DownloadErr? ==> forall k :: 0 <= k < |outcomes| ==> outcomes[k].DownloadFailure?
  {
    var i := FirstDecisive(outcomes);
    if i < |outcomes| then
      match outcomes[i]
      case Returned(info) => Ok(info.GetOr(EmptyInfo))
      case OtherFailure(m) => Err(OtherErr(m))
      case DownloadFailure(m) => Err(DownloadErr(m))  // not reached: outcome i is decisive
    else if outcomes == [] then Err(NoExplicitError)
    else Err(DownloadErr(outcomes[|outcomes| - 1].message))
  }

  /** The engine's outcome for each option set, as if every one were tried. */
  function Outcomes(engine: Engine, url: string, opts: seq<YdlOptions>): (outcomes: seq<Outcome>)
    ensures |outcomes| == |opts|
    ensures forall k :: 0 <= k < |opts| ==> outcomes[k] == engine(url, opts[k])
  {
    seq(|opts|, k requires 0 <= k < |opts| => engine(url, opts[k]))
  }

  /** The full specification of one URL's download: the chain over the engine's outcomes for each profile. */
  function SingleUrlResult(engine: Engine, url: string, outputDir: string, verbose: bool, profiles: seq<Profile>,
                           noplaylist: bool, merge: Option<string>, postprocessors: Option<seq<Postprocessor>>,
                           filenameStyle: string): (r: Result<Info, Failure>)
    ensures r.Err? && r.error.BadStyle? <==> NormalizeFilenameStyle(filenameStyle).Err?
    ensures r == Err(NoExplicitError) <==> NormalizeFilenameStyle(filenameStyle).Ok? && profiles == []
  {
    match OuttmplForStyle(outputDir, filenameStyle)
    case Err(e) => Err(BadStyle(e))
    case Ok(outtmpl) =>
      var opts := AttemptOptions(outtmpl, noplaylist, verbose, profiles, merge, postprocessors);
      ChainResult(Outcomes(engine, url, opts))
  }

  /**
   * `_download_single_url_with_fallback`. The ghost `tried` lists the options
   * the engine was called with, in order.
   */
  method DownloadSingleUrlWithFallback(engine: Engine, url: string, outputDir: string, verbose: bool,
                                       profiles: seq<Profile>, noplaylist: bool, merge: Option<string>,
                                       postprocessors: Option<seq<Postprocessor>>, filenameStyle: string)
    returns (r: Result<Info, Failure>, ghost tried: seq<YdlOptions>)
    ensures r == SingleUrlResult(engine, url, outputDir, verbose, profiles, noplaylist, merge, postprocessors, filenameStyle)
    ensures OuttmplForStyle(outputDir, filenameStyle).Err? ==> tried == []
    ensures OuttmplForStyle(outputDir, filenameStyle).Ok? ==>
              var opts := AttemptOptions(OuttmplForStyle(outputDir, filenameStyle).value, noplaylist, verbose,
                                         profiles, merge, postprocessors);
              tried == opts[..AttemptCount(Outcomes(engine, url, opts))]
  {
    var template := OuttmplForStyle(outputDir, filenameStyle);
    if template.Err? {
      return Err(BadStyle(template.error)), [];
    }
    r, tried := TryProfiles(engine, url, template.value, noplaylist, verbose, profiles, merge, postprocessors);
  }

  /** The loop over the profiles, keeping the last download error. */
  method TryProfiles(engine: Engine, url: string, outtmpl: string, noplaylist: bool, verbose: bool,
                     profiles: seq<Profile>, merge: Option<string>, postprocessors: Option<seq<Postprocessor>>)
    returns (r: Result<Info, Failure>, ghost tried: seq<YdlOptions>)
    ensures var opts := AttemptOptions(outtmpl, noplaylist, verbose, profiles, merge, postprocessors);
            r == ChainResult(Outcomes(engine, url, opts)) && tried == opts[..AttemptCount(Outcomes(engine, url, opts))]
  {
    tried := [];
    ghost var opts := AttemptOptions(outtmpl, noplaylist, verbose, profiles, merge, postprocessors);
    ghost var outcomes := Outcomes(engine, url, opts);
    var lastError: Option<string> := None;
    var k := 0;
    while k < |profiles|
      invariant 0 <= k <= |profiles|
      invariant forall j :: 0 <= j < k ==> outcomes[j].DownloadFailure?
      invariant tried == opts[..k]
      invariant lastError == (if k == 0 then None else Some(outcomes[k - 1].message))
    {
      var options := BuildOptions(outtmpl, noplaylist, verbose, profiles[k], merge, postprocessors);
      tried := tried + [options];
      var outcome := engine(url, options);
      assert outcome == outcomes[k];
      match outcome {
        case Returned(info) =>
          FirstDecisiveIs(outcomes, k);
          return Ok(info.GetOr(EmptyInfo)), tried;
        case OtherFailure(m) =>
          FirstDecisiveIs(outcomes, k);
          return Err(OtherErr(m)), tried;
        case DownloadFailure(m) =>
          lastError := Some(m);
      }
      k := k + 1;
    }
    FirstDecisiveIs(outcomes, |outcomes|);
    assert opts[..k] == opts;
    if lastError.Some? {
      return Err(DownloadErr(lastError.value)), tried;
    }
    return Err(NoExplicitError), tried;
  }

  lemma FirstDecisiveIs(outcomes: seq<Outcome>, i: nat)
    requires i <= |outcomes|
    requires forall k :: 0 <= k < i ==> outcomes[k].DownloadFailure?
    requires i < |outcomes| ==> !outcomes[i].DownloadFailure?
    ensures FirstDecisive(outcomes) == i
  {}

  // ----- What the chain promises -----

  /** The first profile that does not fail with a download error decides, and nothing after it runs. */
  lemma {:induction false} ChainStopsAtFirstDecisive(outcomes: seq<Outcome>, i: nat)
    requires i < |outcomes|
    requires forall k :: 0 <= k < i ==> outcomes[k].DownloadFailure?
    requires !outcomes[i].DownloadFailure?
    ensures AttemptCount(outcomes) == i + 1
    ensures outcomes[i].Returned? ==> ChainResult(outcomes) == Ok(outcomes[i].info.GetOr(EmptyInfo))
    ensures outcomes[i].OtherFailure? ==> ChainResult(outcomes) == Err(OtherErr(outcomes[i].message))
  {
    FirstDecisiveIs(outcomes, i);
  }

  /** The outcomes after the decisive one never affect the result. */
  lemma ChainIgnoresLater(outcomes: seq<Outcome>, later: seq<Outcome>, i: nat)
    requires i < |outcomes| && !outcomes[i].DownloadFailure?
    requires forall k :: 0 <= k < i ==> outcomes[k].DownloadFailure?
    ensures ChainResult(outcomes[..i + 1] + later) == ChainResult(outcomes)
  {
    var joined := outcomes[..i + 1] + later;
    FirstDecisiveIs(outcomes, i);
    FirstDecisiveIs(joined, i);
  }

  /** When every profile fails with a download error, the last one's error is raised, after trying them all. */
  lemma AllDownloadErrors(outcomes: seq<Outcome>)
    requires outcomes != []
    requires forall k :: 0 <= k < |outcomes| ==> outcomes[k].DownloadFailure?
    ensures ChainResult(outcomes) == Err(DownloadErr(outcomes[|outcomes| - 1].message))
    ensures AttemptCount(outcomes) == |outcomes|
  {
    FirstDecisiveIs(outcomes, |outcomes|);
  }

  /** With no profiles at all, the generic error is raised. */
  lemma NoProfiles()
    ensures ChainResult([]) == Err(NoExplicitError) && AttemptCount([]) == 0
  {}

  /** A value that is not a mapping comes back as the empty mapping. */
  lemma NonMappingIsEmpty(outcomes: seq<Outcome>, i: nat)
    requires i < |outcomes| && outcomes[i] == Returned(None)
    requires forall k :: 0 <= k < i ==> outcomes[k].DownloadFailure?
    ensures ChainResult(outcomes) == Ok(EmptyInfo) && !NonEmpty(EmptyInfo)
  {
    FirstDecisiveIs(outcomes, i);
  }
}
