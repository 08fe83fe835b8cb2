/** User-input checks: `validate_urls`, `read_urls_file` and the two alias-table normalisers. */
module Validation {
  import opened Wrappers
  import opened Text
  import opened Urls

  /** The cases of `ValidationError`, each with what its message mentions. */
  datatype ValidationError =
    | NoUrls
    | InvalidUrls(urls: seq<string>)
    | NotYouTube(urls: seq<string>)
    | BadVideoQuality
    | BadFilenameStyle
    | UrlFileNotFound(file: string)
    | InputDirNotFound(dir: string)
    | NoFfmpeg
    | NoMp4Files(dir: string)

  /** `str(exc)` of each `ValidationError`. */
  function Message(e: ValidationError): (m: string)
    ensures m != ""
  {
    match e
    case NoUrls => "No URLs were provided."
    case InvalidUrls(urls) => "Invalid URL(s): " + JoinWith(urls, ", ")
    case NotYouTube(urls) => "Only YouTube URLs are supported. Invalid URL(s): " + JoinWith(urls, ", ")
    case BadVideoQuality => "Video quality must be one of: auto, 2k, fullhd, 1080p, 720p."
    case BadFilenameStyle => "Filename style must be one of: clean, clean-date."
    case UrlFileNotFound(file) => "URL file not found: " + file
    case InputDirNotFound(dir) => "Input directory not found: " + dir
    case NoFfmpeg => "ffmpeg is required but was not found in PATH."
    case NoMp4Files(dir) => "No .mp4 files found in " + dir
  }

  // ----- validate_urls -----

  /** `[u.strip() for u in urls if u and u.strip()]`. */
  function Clean(urls: seq<string>): (cleaned: seq<string>)
    ensures |cleaned| <= |urls|
    ensures forall k :: 0 <= k < |cleaned| ==> cleaned[k] != "" && Strip(cleaned[k]) == cleaned[k]
  {
    if urls == [] then []
    else
      var u := Strip(urls[0]);
      StripIdempotent(urls[0], IsSpace);
      (if u != "" then [u] else []) + Clean(urls[1..])
  }

  /** `validate_urls(urls, youtube_only)`: the cleaned list, or the first check that fails. */
  function ValidateUrls(urls: seq<string>, youtubeOnly: bool): (r: Result<seq<string>, ValidationError>)
    ensures r.Ok? ==> r.value != []
    ensures r.Err? ==> r.error.NoUrls? || r.error.InvalidUrls? || r.error.NotYouTube?
    ensures r.Err? && r.error.NotYouTube? ==> youtubeOnly
  {
    var cleaned := Clean(urls);
    if cleaned == [] then Err(NoUrls)
    else
      var invalid := Filter(cleaned, u => !HasHttpScheme(u));
      if invalid != [] then Err(InvalidUrls(invalid))
      else if youtubeOnly then
        var foreign := Filter(cleaned, u => !IsYouTubeUrl(u));
        if foreign != [] then Err(NotYouTube(foreign)) else Ok(cleaned)
      else Ok(cleaned)
  }

  /**
   * The list is accepted exactly when, once cleaned, it is non-empty, every URL has the
   * `http(s)://` prefix and, when `youtubeOnly`, every URL is a YouTube one; it is then
   * returned cleaned. An empty cleaned list is refused with `NoUrls`.
   */
  lemma ValidateAccepts(urls: seq<string>, youtubeOnly: bool)
    ensures var r := ValidateUrls(urls, youtubeOnly);
            && (r.Ok? <==>
                  && Clean(urls) != []
                  && (forall u :: u in Clean(urls) ==> HasHttpScheme(u))
                  && (youtubeOnly ==> forall u :: u in Clean(urls) ==> IsYouTubeUrl(u)))
            && (r.Ok? ==> r.value == Clean(urls))
            && (r.Err? && r.error.NoUrls? <==> Clean(urls) == [])
  {
    var cleaned := Clean(urls);
    if cleaned != [] {
      var invalid := Filter(cleaned, u => !HasHttpScheme(u));
      if invalid != [] {
        assert invalid[0] in invalid;
      } else if youtubeOnly {
        var foreign := Filter(cleaned, u => !IsYouTubeUrl(u));
        if foreign != [] {
          assert foreign[0] in foreign;
        }
      }
    }
  }

  /**
   * A refusal for a missing prefix, the first check after emptiness, names every URL of the
   * cleaned list that lacks `http(s)://`, and there is at least one; no error other than the
   * three checks' is raised.
   */
  lemma ValidateRejectsSchemeless(urls: seq<string>, youtubeOnly: bool)
    ensures var r := ValidateUrls(urls, youtubeOnly);
            && (r.Err? && r.error.InvalidUrls? ==>
                  r.error.urls != [] && forall u :: u in r.error.urls <==> u in Clean(urls) && !HasHttpScheme(u))
            && (r.Err? ==> r.error.NoUrls? || r.error.InvalidUrls? || r.error.NotYouTube?)
  {}

  /**
   * A refusal for foreign hosts happens only with `youtubeOnly` and only once every URL has the
   * prefix; it names every cleaned URL off the allow-list, and there is at least one.
   */
  lemma ValidateRejectsForeign(urls: seq<string>, youtubeOnly: bool)
    ensures var r := ValidateUrls(urls, youtubeOnly);
            r.Err? && r.error.NotYouTube? ==>
              && youtubeOnly && (forall u :: u in Clean(urls) ==> HasHttpScheme(u))
              && r.error.urls != [] && forall u :: u in r.error.urls <==> u in Clean(urls) && !IsYouTubeUrl(u)
  {
    var cleaned := Clean(urls);
    if cleaned != [] {
      var invalid := Filter(cleaned, u => !HasHttpScheme(u));
      if invalid == [] {
        assert forall u :: u in cleaned ==> HasHttpScheme(u);
      }
    }
  }

  /** Cleaning works element by element, so it keeps the order of the inputs. */
  lemma {:induction false} CleanAppend(a: seq<string>, b: seq<string>)
    ensures Clean(a + b) == Clean(a) + Clean(b)
  {
    if a == [] {
      assert a + b == b;
    } else {
      assert (a + b)[0] == a[0];
      assert (a + b)[1..] == a[1..] + b;
      CleanAppend(a[1..], b);
    }
  }

  /** A cleaned URL is exactly the stripped form of some input that is not blank. */
  lemma {:induction false} CleanMembership(urls: seq<string>, u: string)
    ensures u in Clean(urls) <==> u != "" && exists v :: v in urls && Strip(v) == u
  {
    if urls != [] {
      CleanMembership(urls[1..], u);
      assert forall v :: v in urls <==> v == urls[0] || v in urls[1..];
    }
  }

  /** No URL survives when every input is empty or whitespace. */
  lemma {:induction false} CleanBlank(urls: seq<string>)
    ensures Clean(urls) == [] <==> forall k :: 0 <= k < |urls| ==> Strip(urls[k]) == ""
  {
    if urls != [] {
      CleanBlank(urls[1..]);
      assert forall k :: 1 <= k < |urls| ==> urls[k] == urls[1..][k - 1];
    }
  }

  /** A single URL that lacks the `http(s)://` prefix is reported as invalid, whatever `youtubeOnly` says. */
  lemma RejectsSchemeless(u: string, youtubeOnly: bool)
    requires u != "" && Strip(u) == u && !HasHttpScheme(u)
    ensures ValidateUrls([u], youtubeOnly) == Err(InvalidUrls([u]))
  {
    assert [u][1..] == [];
    assert Clean([u]) == [u];
    assert Filter([u], (v: string) => !HasHttpScheme(v)) == [u] by {
      assert [u][1..] == [];
    }
  }

  // ----- read_urls_file -----

  /** The line boundaries of Python's `str.splitlines()`. */
  const LineBreaks: set<char> :=
    {'\n', '\r', '\U{0B}', '\U{0C}', '\U{1C}', '\U{1D}', '\U{1E}', '\U{85}', '\U{2028}', '\U{2029}'}

  /** `text.splitlines()`: "\r\n" counts as one boundary, and a final boundary opens no empty line. */
  function SplitLines(text: string): (lines: seq<string>)
    ensures forall k :: 0 <= k < |lines| ==> forall c :: c in lines[k] ==> c !in LineBreaks
    decreases |text|
  {
    if text == [] then []
    else
      var i := IndexOf(text, LineBreaks);
      if i == |text| then [text]
      else
        var width := if text[i] == '\r' && i + 1 < |text| && text[i + 1] == '\n' then 2 else 1;
        [Before(text, LineBreaks)] + SplitLines(text[i + width..])
  }

  /** The text of a file whose every line ends with "\n". */
  function Terminated(lines: seq<string>): string {
    if lines == [] then "" else lines[0] + "\n" + Terminated(lines[1..])
  }

  /** `splitlines` recovers the lines of a newline-terminated file. */
  lemma {:induction false} SplitTerminated(lines: seq<string>)
    requires forall k :: 0 <= k < |lines| ==> forall c :: c in lines[k] ==> c !in LineBreaks
    ensures SplitLines(Terminated(lines)) == lines
  {
    if lines != [] {
      var text := Terminated(lines);
      var n := |lines[0]|;
      assert text == lines[0] + ("\n" + Terminated(lines[1..]));
      IndexOfIs(text, LineBreaks, n);
      assert text[..n] == lines[0];
      assert text[n + 1..] == Terminated(lines[1..]);
      SplitTerminated(lines[1..]);
    }
  }

  /** Each line of the file, stripped. */
  function StrippedLines(text: string): (lines: seq<string>)
    ensures |lines| == |SplitLines(text)|
    ensures forall k :: 0 <= k < |lines| ==> lines[k] == Strip(SplitLines(text)[k])
    ensures forall line :: line in lines ==> Strip(line) == line
  {
    var raw := SplitLines(text);
    forall k | 0 <= k < |raw| ensures Strip(Strip(raw[k])) == Strip(raw[k]) {
      StripIdempotent(raw[k], IsSpace);
    }
    seq(|raw|, k requires 0 <= k < |raw| => Strip(raw[k]))
  }

  /** A kept line: not blank and not a `#` comment. */
  predicate IsUrlLine(line: string) {
    line != "" && !StartsWith(line, "#")
  }

  /** `read_urls_file(path)`, given whether the file exists and its text. */
  function ReadUrlsFile(file: string, exists_: bool, text: string): (r: Result<seq<string>, ValidationError>)
    ensures !exists_ ==> r == Err(UrlFileNotFound(file))
    ensures r.Ok? ==> r.value == Filter(StrippedLines(text), IsUrlLine)
    ensures r.Ok? ==> r.value != [] && forall u :: u in r.value ==> IsYouTubeUrl(u) && !StartsWith(u, "#")
    ensures exists_ ==> r == ValidateUrls(Filter(StrippedLines(text), IsUrlLine), true)
  {
    if !exists_ then Err(UrlFileNotFound(file))
    else
      var urls := Filter(StrippedLines(text), IsUrlLine);
      assert Clean(urls) == urls by {
        forall k | 0 <= k < |urls| ensures urls[k] != "" && Strip(urls[k]) == urls[k] {
          assert urls[k] in urls;
        }
        CleanKeepsStripped(urls);
      }
      ValidateAccepts(urls, true);
      ValidateUrls(urls, true)
  }

  /** Cleaning leaves a list of stripped, non-empty strings as it is. */
  lemma {:induction false} CleanKeepsStripped(urls: seq<string>)
    requires forall k :: 0 <= k < |urls| ==> urls[k] != "" && Strip(urls[k]) == urls[k]
    ensures Clean(urls) == urls
  {
    if urls != [] {
      CleanKeepsStripped(urls[1..]);
      assert urls == [urls[0]] + urls[1..];
    }
  }

  // ----- _normalize_video_quality and _normalize_filename_style -----

  const VideoQualityAliases: map<string, string> := map[
    "auto" := "auto", "best" := "auto",
    "2k" := "1440", "1440p" := "1440",
    "fullhd" := "1080", "fhd" := "1080", "1080p" := "1080",
    "hd" := "720", "720p" := "720"]

  const FilenameStyleAliases: map<string, string> := map[
    "clean" := "clean", "clean-date" := "clean-date", "date" := "clean-date"]

  /** `_normalize_video_quality`: a bare height or "auto", looked up after strip and lower. */
  function NormalizeVideoQuality(quality: string): (r: Result<string, ValidationError>)
    ensures r.Ok? <==> Lower(Strip(quality)) in VideoQualityAliases
    ensures r.Ok? ==> r.value in {"auto", "1440", "1080", "720"}
    ensures r.Err? ==> r.error == BadVideoQuality
  {
    var value := Lower(Strip(quality));
    if value in VideoQualityAliases then Ok(VideoQualityAliases[value]) else Err(BadVideoQuality)
  }

  /** `_normalize_filename_style`: "clean" or "clean-date", looked up after strip and lower. */
  function NormalizeFilenameStyle(style: string): (r: Result<string, ValidationError>)
    ensures r.Ok? <==> Lower(Strip(style)) in FilenameStyleAliases
    ensures r.Ok? ==> r.value in {"clean", "clean-date"}
    ensures r.Err? ==> r.error == BadFilenameStyle
  {
    var value := Lower(Strip(style));
    if value in FilenameStyleAliases then Ok(FilenameStyleAliases[value]) else Err(BadFilenameStyle)
  }

  /** Strip then lower is the same as lower then strip, and lowering twice is lowering once. */
  lemma KeyOf(s: string, t: string)
    requires Lower(s) == Lower(t)
    ensures Lower(Strip(s)) == Lower(Strip(t))
  {
    StripLower(s);
    StripLower(t);
  }

  /** Video-quality normalisation ignores letter case. */
  lemma VideoQualityIgnoresCase(s: string, t: string)
    requires Lower(s) == Lower(t)
    ensures NormalizeVideoQuality(s) == NormalizeVideoQuality(t)
  {
    KeyOf(s, t);
  }

  /** Video-quality normalisation ignores surrounding whitespace. */
  lemma VideoQualityIgnoresPadding(pre: string, quality: string, post: string)
    requires forall k :: 0 <= k < |pre| ==> IsSpace(pre[k])
    requires forall k :: 0 <= k < |post| ==> IsSpace(post[k])
    ensures NormalizeVideoQuality(pre + quality + post) == NormalizeVideoQuality(quality)
  {
    StripPadded(pre, quality, post, IsSpace);
  }

  /** Filename-style normalisation ignores letter case. */
  lemma FilenameStyleIgnoresCase(s: string, t: string)
    requires Lower(s) == Lower(t)
    ensures NormalizeFilenameStyle(s) == NormalizeFilenameStyle(t)
  {
    KeyOf(s, t);
  }

  /** Filename-style normalisation ignores surrounding whitespace. */
  lemma FilenameStyleIgnoresPadding(pre: string, style: string, post: string)
    requires forall k :: 0 <= k < |pre| ==> IsSpace(pre[k])
    requires forall k :: 0 <= k < |post| ==> IsSpace(post[k])
    ensures NormalizeFilenameStyle(pre + style + post) == NormalizeFilenameStyle(style)
  {
    StripPadded(pre, style, post, IsSpace);
  }

  /** Lower-case letters, digits and '-': what the normalisers return. */
  predicate LowerWord(s: string) {
    forall c :: c in s ==> ('a' <= c <= 'z') || ('0' <= c <= '9') || c == '-'
  }

  lemma StrippedLowerWord(s: string)
    requires LowerWord(s)
    ensures Lower(Strip(s)) == s
  {
    LowerKeepsLowercase(s);
    if s != [] {
      assert s[0] in s && s[|s| - 1] in s;
      FirstKeptIs(s, IsSpace, 0);
      assert s[0..] == s;
      EndKeptIs(s, IsSpace, |s|);
      assert s[..|s|] == s;
    }
  }

  /** Normalising a filename style a second time changes nothing. */
  lemma FilenameStyleIdempotent(style: string)
    requires NormalizeFilenameStyle(style).Ok?
    ensures NormalizeFilenameStyle(NormalizeFilenameStyle(style).value) == NormalizeFilenameStyle(style)
  {
    var v := NormalizeFilenameStyle(style).value;
    assert LowerWord("clean") && LowerWord("clean-date");
    StrippedLowerWord(v);
  }

  /**
   * A second pass of video-quality normalisation refuses every height it produced:
   * only "auto" is both an alias and a result.
   */
  lemma VideoQualityNotIdempotent(quality: string)
    requires NormalizeVideoQuality(quality).Ok?
    ensures var v := NormalizeVideoQuality(quality).value;
            NormalizeVideoQuality(v) == (if v == "auto" then Ok("auto") else Err(BadVideoQuality))
  {
    var v := NormalizeVideoQuality(quality).value;
    QualityWords();
    StrippedLowerWord(v);
    assert v == "auto" || v !in VideoQualityAliases by {
      HeightsAreNotAliases();
    }
  }

  lemma HeightsAreNotAliases()
    ensures "1440" !in VideoQualityAliases && "1080" !in VideoQualityAliases && "720" !in VideoQualityAliases
  {}

  lemma QualityWords()
    ensures LowerWord("auto") && LowerWord("1440") && LowerWord("1080") && LowerWord("720")
  {}
}
