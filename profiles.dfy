/** The fixed configuration the downloads hand to yt-dlp: output templates, format selectors and profiles. */
module Profiles {
  import opened Wrappers
  import opened Text
  import opened Paths
  import opened Validation

  // ----- _outtmpl_for_style -----

  /** yt-dlp's template for a title cut to 180 bytes followed by the extension. */
  const TitleTemplate: string := "%(title).180B.%(ext)s"

  /** The upload date, as YYYYMMDD and a dash, that the "clean-date" style puts first. */
  const DatePrefix: string := "%(upload_date>%Y%m%d)s-"

  /** The file-name template of a normalised style. */
  function TemplateFor(style: string): string {
    if style == "clean-date" then DatePrefix + TitleTemplate else TitleTemplate
  }

  lemma TemplatesHaveNoSeparator()
    ensures '/' !in TitleTemplate && '/' !in DatePrefix + TitleTemplate
  {}

  /** `_outtmpl_for_style(output_dir, style)`: the style's template inside the output directory. */
  function OuttmplForStyle(outputDir: string, style: string): (r: Result<string, ValidationError>)
    ensures r.Err? <==> NormalizeFilenameStyle(style).Err?
    ensures r.Err? ==> r.error == BadFilenameStyle
    ensures r.Ok? ==> BaseName(r.value) == TemplateFor(NormalizeFilenameStyle(style).value)
    ensures r.Ok? && outputDir != "" && outputDir != "." ==> StartsWith(r.value, outputDir)
    ensures r.Ok? ==> EndsWith(r.value, TitleTemplate)
    ensures r.Ok? ==> (EndsWith(r.value, DatePrefix + TitleTemplate) <==> NormalizeFilenameStyle(style).value == "clean-date")
  {
    match NormalizeFilenameStyle(style)
    case Err(e) => Err(e)
    case Ok(normal) =>
      var template := TemplateFor(normal);
      var p := JoinPath(outputDir, template);
      TemplatesHaveNoSeparator();
      BaseNameJoin(outputDir, template);
      TemplateEndings(p, normal);
      Ok(p)
  }

  /** Which templates a path ends with, read off its final component. */
  lemma TemplateEndings(p: string, style: string)
    requires style in {"clean", "clean-date"}
    requires BaseName(p) == TemplateFor(style)
    ensures EndsWith(p, TitleTemplate)
    ensures EndsWith(p, DatePrefix + TitleTemplate) <==> style == "clean-date"
  {
    var name := BaseName(p);
    var whole := DatePrefix + TitleTemplate;
    assert name[|name| - |TitleTemplate|..] == TitleTemplate;
    assert p[|p| - |TitleTemplate|..] == name[|name| - |TitleTemplate|..];
    if style == "clean-date" {
      assert p[|p| - |whole|..] == name;
    }
  }

  // ----- _video_format_for_quality and the profiles -----

  /** The selector a bounded quality adds to each alternative. */
  function HeightCap(height: string): string {
    "[height<=" + height + "]"
  }

  /** The "auto" format: the best MP4 video with M4A audio, neither over HLS, then the best MP4, then anything. */
  const AutoVideoFormat: string := "bv*[ext=mp4]" + "[protocol!=m3u8]+ba[ext=m4a][protocol!=m3u8]/b[ext=mp4]/b"

  /** The three alternatives of a bounded video format, best first. */
  function BoundedVideoAlternatives(maxHeight: string): seq<string> {
    [ "bv*[ext=mp4]" + HeightCap(maxHeight) + "[protocol!=m3u8]+ba[ext=m4a][protocol!=m3u8]",
      "b[ext=mp4]" + HeightCap(maxHeight),
      "b" + HeightCap(maxHeight) ]
  }

  /** `_video_format_for_quality(h)["format"]`: the alternatives joined by '/', or the unbounded selector for "auto". */
  function VideoFormatForQuality(maxHeight: string): (format: string)
    ensures StartsWith(format, "bv*[ext=mp4]")
  {
    if maxHeight == "auto" then
      AutoVideoFormat
    else
      var alternatives := BoundedVideoAlternatives(maxHeight);
      JoinPieces(alternatives[0], alternatives[1], alternatives[2], '/');
      assert alternatives == [alternatives[0], alternatives[1], alternatives[2]];
      Join(alternatives, '/')
  }

  /** The two capped alternatives of the second profile; an unbounded "best" follows them. */
  function FallbackVideoAlternatives(maxHeight: string): seq<string> {
    [ "best[ext=mp4]" + HeightCap(maxHeight), "best" + HeightCap(maxHeight), "best" ]
  }

  /** The second profile's format. */
  function VideoFallbackFormat(maxHeight: string): (format: string)
    ensures StartsWith(format, "best[ext=mp4]") && EndsWith(format, "/best")
  {
    if maxHeight == "auto" then
      assert "best[ext=mp4]/best" == "best[ext=mp4]" + "/best";
      "best[ext=mp4]/best"
    else
      var alternatives := FallbackVideoAlternatives(maxHeight);
      JoinPieces(alternatives[0], alternatives[1], alternatives[2], '/');
      assert alternatives == [alternatives[0], alternatives[1], alternatives[2]];
      Join(alternatives, '/')
  }

  lemma CapHasNoSlash(maxHeight: string)
    requires '/' !in maxHeight
    ensures '/' !in HeightCap(maxHeight)
  {}

  lemma BoundedAlternativesPlain(maxHeight: string)
    requires '/' !in maxHeight
    ensures forall k :: 0 <= k < 3 ==> '/' !in BoundedVideoAlternatives(maxHeight)[k]
  {
    CapHasNoSlash(maxHeight);
    assert '/' !in "bv*[ext=mp4]" && '/' !in "[protocol!=m3u8]+ba[ext=m4a][protocol!=m3u8]";
    assert '/' !in "b[ext=mp4]" && '/' !in "b";
  }

  lemma BoundedAlternativesCapped(maxHeight: string)
    ensures forall k :: 0 <= k < 3 ==> Contains(BoundedVideoAlternatives(maxHeight)[k], HeightCap(maxHeight))
  {
    var cap := HeightCap(maxHeight);
    ContainsMiddle("bv*[ext=mp4]", cap, "[protocol!=m3u8]+ba[ext=m4a][protocol!=m3u8]");
    ContainsMiddle("b[ext=mp4]", cap, "");
    ContainsMiddle("b", cap, "");
    assert "b[ext=mp4]" + cap + "" == "b[ext=mp4]" + cap && "b" + cap + "" == "b" + cap;
  }

  /** A bounded video format splits back into its three alternatives, and every one carries the height cap. */
  lemma VideoFormatCapped(maxHeight: string)
    requires maxHeight != "auto" && '/' !in maxHeight
    ensures Split(VideoFormatForQuality(maxHeight), '/') == BoundedVideoAlternatives(maxHeight)
    ensures forall k :: 0 <= k < 3 ==> Contains(BoundedVideoAlternatives(maxHeight)[k], HeightCap(maxHeight))
  {
    BoundedAlternativesPlain(maxHeight);
    SplitJoin(BoundedVideoAlternatives(maxHeight), '/');
    BoundedAlternativesCapped(maxHeight);
  }

  lemma FallbackAlternativesPlain(maxHeight: string)
    requires '/' !in maxHeight
    ensures forall k :: 0 <= k < 3 ==> '/' !in FallbackVideoAlternatives(maxHeight)[k]
  {
    CapHasNoSlash(maxHeight);
    assert '/' !in "best[ext=mp4]" && '/' !in "best";
  }

  /** The fallback format splits back into two capped alternatives followed by an unbounded "best". */
  lemma VideoFallbackCapped(maxHeight: string)
    requires maxHeight != "auto" && '/' !in maxHeight
    ensures var alternatives := Split(VideoFallbackFormat(maxHeight), '/');
            && alternatives == FallbackVideoAlternatives(maxHeight)
            && Contains(alternatives[0], HeightCap(maxHeight)) && Contains(alternatives[1], HeightCap(maxHeight))
            && alternatives[2] == "best"
  {
    var cap := HeightCap(maxHeight);
    FallbackAlternativesPlain(maxHeight);
    SplitJoin(FallbackVideoAlternatives(maxHeight), '/');
    ContainsMiddle("best[ext=mp4]", cap, "");
    ContainsMiddle("best", cap, "");
    assert "best[ext=mp4]" + cap + "" == "best[ext=mp4]" + cap && "best" + cap + "" == "best" + cap;
  }

  /** A yt-dlp option set's `format` and `extractor_args.youtube.player_client`. */
  datatype Profile = Profile(format: string, playerClient: string)

  /** The two profiles of `download_video`: the quality format on the default client, then the fallback on android. */
  function VideoProfiles(maxHeight: string): (profiles: seq<Profile>)
    ensures |profiles| == 2
    ensures profiles[0].playerClient == "default" && profiles[1].playerClient == "android"
  {
    [Profile(VideoFormatForQuality(maxHeight), "default"), Profile(VideoFallbackFormat(maxHeight), "android")]
  }

  /** The two profiles shared by `download_audio_as_mp3` and `download_video_to_mp3`. */
  function AudioProfiles(): (profiles: seq<Profile>)
    ensures |profiles| == 2
    ensures profiles[0].playerClient == "default" && profiles[1].playerClient == "android"
  {
    [Profile("bestaudio[protocol!=m3u8]/bestaudio/best", "default"), Profile("bestaudio/best", "android")]
  }

  /** The alternatives of the first audio profile, best first: an audio stream that is not HLS, then any. */
  const AudioAlternatives: seq<string> := ["bestaudio[protocol!=m3u8]", "bestaudio", "best"]


  /** The android audio profile keeps the default one's alternatives except the first, HLS-excluding one. */
  lemma AudioFallbackDropsFirst()
    ensures Split(AudioProfiles()[0].format, '/') == AudioAlternatives
    ensures Split(AudioProfiles()[1].format, '/') == AudioAlternatives[1..]
  {
    var hls, any, best := "bestaudio[protocol!=m3u8]", "bestaudio", "best";
    JoinPieces(hls, any, best, '/');
    assert hls + "/" + any + "/" + best == AudioProfiles()[0].format;
    assert any + "/" + best == AudioProfiles()[1].format;
    assert '/' !in hls && '/' !in any && '/' !in best;
    assert AudioAlternatives[1..] == [any, best];
    SplitJoin(AudioAlternatives, '/');
    SplitJoin([any, best], '/');
  }


  // ----- The yt-dlp option set of one attempt -----

  /** `str(n)` for a natural number: its decimal digits. */
  function Decimal(n: nat): (s: string)
    ensures s != [] && forall k :: 0 <= k < |s| ==> '0' <= s[k] <= '9'
    ensures s[0] == '0' ==> n == 0
  {
    if n < 10 then [('0' as int + n) as char] else Decimal(n / 10) + [('0' as int + n % 10) as char]
  }

  /** `str(i)` for any integer. */
  function IntToString(i: int): string {
    if i < 0 then "-" + Decimal(-i) else Decimal(i)
  }

  /** The number a string of decimal digits denotes. */
  function DigitsValue(s: string): nat
    requires forall k :: 0 <= k < |s| ==> '0' <= s[k] <= '9'
  {
    if s == [] then 0 else DigitsValue(s[..|s| - 1]) * 10 + (s[|s| - 1] as int - '0' as int)
  }

  /** `int(s)` for what `IntToString` writes. */
  function ParseInt(s: string): int
    requires s != []
    requires s[0] == '-' ==> forall k :: 1 <= k < |s| ==> '0' <= s[k] <= '9'
    requires s[0] != '-' ==> forall k :: 0 <= k < |s| ==> '0' <= s[k] <= '9'
  {
    if s[0] == '-' then -(DigitsValue(s[1..]) as int) else DigitsValue(s)
  }

  lemma {:induction false} DecimalValue(n: nat)
    ensures DigitsValue(Decimal(n)) == n
  {
    if n >= 10 {
      var s := Decimal(n);
      assert s[..|s| - 1] == Decimal(n / 10);
      DecimalValue(n / 10);
    }
  }

  /** `int(str(i)) == i`: the quality written into the postprocessor names the bitrate asked for. */
  lemma IntToStringRoundTrip(i: int)
    ensures var s := IntToString(i);
            s != [] && (s[0] == '-' <==> i < 0) && ParseInt(s) == i
  {
    if i < 0 {
      var s := IntToString(i);
      assert s[1..] == Decimal(-i);
      DecimalValue(-i);
    } else {
      DecimalValue(i);
    }
  }

  /** A post-processor entry; the downloads only use `FFmpegExtractAudio`. */
  datatype Postprocessor = ExtractAudio(codec: string, quality: string)

  /** The post-processors of the two audio downloads: extract MP3 at `str(quality_kbps)`. */
  function Mp3Postprocessors(qualityKbps: int): seq<Postprocessor> {
    [ExtractAudio("mp3", IntToString(qualityKbps))]
  }

  const UserAgent: string :=
    "Mozilla/5.0 (Windows NT 10.0; Win64; x64) AppleWebKit/537.36 (KHTML, like Gecko) Chrome/122.0.0.0 Safari/537.36"

  /** The `ydl_opts` mapping of one attempt; an absent optional key is `None`. */
  datatype YdlOptions = YdlOptions(
    outtmpl: string,
    noplaylist: bool,
    quiet: bool,
    restrictFilenames: bool,
    windowsFilenames: bool,
    userAgent: string,
    format: string,
    playerClient: string,
    mergeOutputFormat: Option<string>,
    postprocessors: Option<seq<Postprocessor>>)

  /** The options `_download_single_url_with_fallback` builds for one profile. */
  function BuildOptions(outtmpl: string, noplaylist: bool, verbose: bool, profile: Profile,
                        merge: Option<string>, postprocessors: Option<seq<Postprocessor>>): (o: YdlOptions)
    ensures o.outtmpl == outtmpl && o.noplaylist == noplaylist && o.quiet == !verbose
    ensures o.restrictFilenames && o.windowsFilenames && o.userAgent == UserAgent
    ensures o.format == profile.format && o.playerClient == profile.playerClient
    ensures o.mergeOutputFormat.Some? <==> merge.Some? && merge.value != ""
    ensures o.mergeOutputFormat.Some? ==> o.mergeOutputFormat == merge
    ensures o.postprocessors.Some? <==> postprocessors.Some? && postprocessors.value != []
    ensures o.postprocessors.Some? ==> o.postprocessors == postprocessors
  {
    YdlOptions(
      outtmpl, noplaylist, !verbose, true, true, UserAgent, profile.format, profile.playerClient,
      if merge.Some? && merge.value != "" then merge else None,
      if postprocessors.Some? && postprocessors.value != [] then postprocessors else None)
  }
  /** Option sets built for one download differ at most in the profile's format and player client. */
  lemma OptionsDifferOnlyByProfile(outtmpl: string, noplaylist: bool, verbose: bool, p: Profile, q: Profile,
                                   merge: Option<string>, postprocessors: Option<seq<Postprocessor>>)
    ensures var a := BuildOptions(outtmpl, noplaylist, verbose, p, merge, postprocessors);
            var b := BuildOptions(outtmpl, noplaylist, verbose, q, merge, postprocessors);
            && a.(format := q.format, playerClient := q.playerClient) == b
            && (a == b <==> p == q)
  {}

}
