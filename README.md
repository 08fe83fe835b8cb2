# Download_Videos: a verified model of `downloader/core.py`

`downloader/core.py` is the library behind the downloader's command line. It does four things:

- It validates user input: the URL list, the URL file, the video quality alias and the filename-style alias.
- It downloads each URL with yt-dlp. Every URL goes through a chain of option profiles, and the first
  attempt that does not fail with a `DownloadError` decides the outcome.
- It appends one JSON record per attempted URL to `downloads/history.json`. A failed URL stops the run
  after its record is written.
- It converts the `.mp4` files of a directory to `.mp3` with ffmpeg, in sorted path order, skipping a
  file whose `.mp3` already exists unless asked to overwrite.

The model follows the source one module per concern:

- `Text`: the `str` methods used: `strip`, `lower`, `split`, `join`, `startswith`.
- `Paths`: `PurePosixPath` join, `name` and `with_suffix`, on paths written as strings that are already in pathlib's normal form.
- `Urls`: `URL_RE`, `urlsplit`, `parse_qs(...).get("v")` and `_is_youtube_url`.
- `Validation`: `ValidationError` messages, `validate_urls`, `read_urls_file` and the two alias normalisers.
- `Profiles`: output templates, format selectors, the download profiles and the `ydl_opts` mapping.
- `Metadata`: the info mapping, `_extract_output_path` and `_build_history_entry`.
- `History`: the history file as a class whose `Append` rewrites the stored list.
- `Fallback`: `_download_single_url_with_fallback`, with the download engine as a function argument.
- `Downloads`: the per-URL loop shared by `download_video`, `download_audio_as_mp3` and `download_video_to_mp3`.
- `Sorting`: the order `sorted()` gives `pathlib` paths.
- `Convert`: `require_ffmpeg` and `convert_mp4_to_mp3`, with the directory and ffmpeg as classes the run updates.

Pure code is modelled as functions. The loops become methods with loop invariants, each proved against a
specification function:

- the profile chain,
- the URL loop that appends history records,
- the conversion loop,
- the candidate collection of `_extract_output_path`.

The state the source mutates is a class field updated in place:

- the history file's stored list,
- the set of files in the input directory,
- the list of ffmpeg commands run.

Calls the model cannot see become parameters:

- yt-dlp's `extract_info` is an `Engine` function from a URL and an option set to an outcome.
- The UTC clock is a `Clock` from the index of the attempted URL to its timestamp.
- `shutil.which("ffmpeg")` is a boolean.
- `subprocess.run` is the `Encoder.succeeds` predicate over commands.

A video download's history record keeps the quality string the caller gave, not the normalised height,
because `download_video` passes `video_quality` rather than `max_height`
(`Downloads.VideoRecordsKeepRawQuality`).

## Model

| member | source | states |
|---|---|---|
| Urls.SplitUrl | downloader/core.py:87 | in the split URL the host holds no '/', '?' or '#', the path no '?' or '#', the query no '#' |
| Urls.SplitWellFormed | downloader/core.py:87 | `urlsplit` of `http(s)://host/path?query` made of plain characters gives back exactly that scheme, host, path and query, with an empty fragment |
| Urls.HostEnding | downloader/core.py:92 | among the allow-listed hosts, the ones ending in "youtu.be" are exactly the two short-link hosts |
| Urls.AcceptsWatchUrl | downloader/core.py:95-97 | `http(s)://<long host>/watch?v=<id>` is a YouTube URL for every non-empty id without '&' |
| Urls.RejectsWatchWithoutVideo | downloader/core.py:95-97 | a bare `/watch` with no query is refused on every long host |
| Urls.WatchPartsDecided | downloader/core.py:95-97 | on `/watch`, a long host accepts the URL exactly when its query gives `v` a non-empty value, so a query such as `list=PL1` alone is refused |
| Urls.AcceptsShortLink | downloader/core.py:92-93 | `http(s)://youtu.be/<id>` or `www.youtu.be/<id>` is accepted for every non-empty id without separators |
| Urls.RejectsBareShortLink | downloader/core.py:92-93 | a short link whose path is only "/" is refused |
| Urls.PagePartsDecided | downloader/core.py:99 | off `/watch`, a long host accepts a path exactly when it starts with `/shorts/`, `/live/` or `/playlist` |
| Urls.LongHostPages | downloader/core.py:99 | the same both-ways statement on whole `http(s)://` URLs |
| Urls.RejectsOtherHosts | downloader/core.py:88-90 | a URL whose lower-cased host is not in `YOUTUBE_HOSTS` is refused, whatever its path |
| Urls.AcceptsParts | downloader/core.py:86-99 | an accepted split URL has a non-empty host and a non-empty path |
| Urls.IsYouTubeUrl | downloader/core.py:86-99 | an accepted URL splits into a non-empty host and a non-empty path, so a bare `https://youtube.com` is refused |
| Urls.VideoParamEitherSide | downloader/core.py:96-97 | a query gives a video id exactly when the text on one side of an '&' does |
| Validation.Clean | downloader/core.py:103 | the cleaned list is no longer than the input and holds only non-empty, already-stripped strings |
| Validation.CleanAppend | downloader/core.py:103 | cleaning works element by element, so it keeps the input order |
| Validation.CleanMembership | downloader/core.py:103 | a string is in the cleaned list exactly when it is non-empty and the stripped form of some input |
| Validation.CleanBlank | downloader/core.py:103-105 | the cleaned list is empty exactly when every input is blank |
| Validation.ValidateAccepts | downloader/core.py:102-119 | the list is accepted exactly when, cleaned, it is non-empty, every URL has `http(s)://` and (when YouTube-only) every URL is a YouTube URL; accepted lists come back cleaned; `NoUrls` is raised exactly for an empty cleaned list |
| Validation.ValidateRejectsSchemeless | downloader/core.py:107-109 | an invalid-URL refusal names exactly the cleaned URLs without the `http(s)://` prefix, at least one of them, and the three checks' errors are the only ones raised |
| Validation.ValidateRejectsForeign | downloader/core.py:111-117 | a non-YouTube refusal happens only when YouTube-only and only after every URL passed the prefix check; it names exactly the cleaned URLs that are not YouTube URLs, at least one |
| Validation.ValidateUrls | downloader/core.py:102-119 | an accepted list is non-empty; the only refusals are no URLs, invalid URLs and non-YouTube URLs, and the last only when YouTube-only |
| Validation.RejectsSchemeless | tests/test_cli.py:17-19 | a single URL without the prefix is refused as invalid, whether or not YouTube-only is asked |
| Validation.Message | downloader/core.py:102-124 | every validation error has a non-empty message, so a refused style recorded as a failure always carries its `error` key |
| Validation.SplitLines | downloader/core.py:126 | no line `splitlines` returns holds a line boundary |
| Validation.SplitTerminated | downloader/core.py:126 | `splitlines` gives back the lines of a file whose every line ends with a newline |
| Validation.StrippedLines | downloader/core.py:126 | one stripped line per line of the file, in order, each with nothing left to strip |
| Validation.ReadUrlsFile | downloader/core.py:122-128 | a missing file raises `UrlFileNotFound`; otherwise the result is `validate_urls` of the stripped lines that are neither blank nor `#` comments, so every URL returned is a YouTube URL and no comment survives |
| Validation.CleanKeepsStripped | downloader/core.py:127-128 | the lines `read_urls_file` keeps pass through the cleaning step unchanged |
| Validation.NormalizeVideoQuality | downloader/core.py:32-47 | succeeds exactly when the stripped, lower-cased input is an alias; the result is "auto", "1440", "1080" or "720"; otherwise `BadVideoQuality` |
| Validation.VideoQualityIgnoresCase | downloader/core.py:33 | two inputs that lower-case alike normalise alike |
| Validation.VideoQualityIgnoresPadding | downloader/core.py:33 | surrounding whitespace never changes the result |
| Validation.VideoQualityNotIdempotent | downloader/core.py:34-47 | a second pass refuses every height the first produced; only "auto" survives it |
| Validation.NormalizeFilenameStyle | downloader/core.py:50-59 | succeeds exactly when the stripped, lower-cased input is an alias; the result is "clean" or "clean-date"; otherwise `BadFilenameStyle` |
| Validation.FilenameStyleIgnoresCase | downloader/core.py:51 | two inputs that lower-case alike normalise alike |
| Validation.FilenameStyleIgnoresPadding | downloader/core.py:51 | surrounding whitespace never changes the result |
| Validation.FilenameStyleIdempotent | downloader/core.py:50-59 | normalising a normalised style changes nothing |
| Paths.JoinPath | downloader/core.py:68 | a joined path ends with the name joined and, unless the directory is `""` or `"."`, starts with the directory |
| Paths.BaseNameJoin | downloader/core.py:68 | the final component of `dir / name` is `name` when `name` holds no separator |
| Paths.WithSuffix | downloader/core.py:185 | the result ends with the new suffix and keeps the text up to the last '/' |
| Paths.WithSuffixReplaces | downloader/core.py:185 | for a directory ending in '/' (or none) and a name `stem + suffix` with a plain suffix, the result is the directory, the same stem and the new suffix |
| Paths.NameWithSuffix | downloader/core.py:515 | for a bare name `stem + suffix` with a plain suffix, the result is the same stem and the new suffix |
| Paths.StemOfSuffixed | downloader/core.py:185 | the stem of `stem + ".ext"` is `stem` again |
| Paths.WithSuffixIdempotent | downloader/core.py:185 | forcing the same suffix twice gives what forcing it once gives |
| Profiles.OuttmplForStyle | downloader/core.py:62-68 | fails exactly when the style does not normalise; otherwise it starts with the output directory (unless that is `""` or `"."`), its final component is the style's template, it always ends with the title template, and it ends with the date prefix and title template exactly for "clean-date" |
| Profiles.VideoFormatCapped | downloader/core.py:76-83 | a bounded format splits at '/' into its three alternatives, each carrying the height cap |
| Profiles.VideoFormatForQuality | downloader/core.py:71-83 | every quality's format starts with the MP4 video alternative |
| Profiles.VideoFallbackCapped | downloader/core.py:368-373 | the second video profile splits into two height-capped alternatives and an unbounded "best" |
| Profiles.VideoFallbackFormat | downloader/core.py:368-373 | the second video profile starts with the best MP4 and ends with an unbounded `/best` |
| Profiles.VideoProfiles | downloader/core.py:363-376 | two profiles, on the default client and then on android |
| Profiles.AudioProfiles | downloader/core.py:288-297 | two profiles, on the default client and then on android |
| Profiles.AudioFallbackDropsFirst | downloader/core.py:288-297 | the default audio profile splits into `bestaudio[protocol!=m3u8]`, `bestaudio`, `best`, and the android one is the same without its first alternative |
| Profiles.DecimalValue | downloader/core.py:312 | the digits `str(n)` writes denote `n` |
| Profiles.IntToStringRoundTrip | downloader/core.py:312 | `int(str(i)) == i`, with a leading '-' exactly for negative `i` |
| Profiles.OptionsDifferOnlyByProfile | downloader/core.py:244-262 | two option sets built for the same download differ at most in `format` and the player client, and they are equal exactly when the profiles are |
| Fallback.AttemptsDifferOnlyByProfile | downloader/core.py:243-262 | any two attempts of one chain carry the same settings except the profile's format and client, and coincide exactly when their profiles do |
| Fallback.FirstDecisive | downloader/core.py:264-272 | the index of the first outcome that is not a `DownloadError`; all before it are |
| Fallback.ChainResult | downloader/core.py:264-276 | the generic error comes exactly from an empty chain; a value comes back only when some profile returned one; a download error is raised only when every profile raised one; a style error never comes from the chain |
| Fallback.TryProfiles | downloader/core.py:243-276 | the loop's result is the chain's result over the engine's outcomes, and the engine is called with exactly the option sets up to the first decisive one |
| Fallback.DownloadSingleUrlWithFallback | downloader/core.py:229-276 | a bad style calls the engine never; otherwise the result and the calls are those of the chain on that style's template |
| Fallback.SingleUrlResult | downloader/core.py:229-276 | a style error is raised exactly when the style does not normalise, and the generic error exactly when it does and there are no profiles |
| Fallback.ChainStopsAtFirstDecisive | downloader/core.py:264-269 | the first non-`DownloadError` outcome decides: a returned value comes back, another exception propagates, and nothing after it runs |
| Fallback.ChainIgnoresLater | downloader/core.py:264-272 | outcomes after the decisive one never change the result |
| Fallback.AllDownloadErrors | downloader/core.py:274-275 | when every profile fails with a download error, all are tried and the last error is raised |
| Fallback.NoProfiles | downloader/core.py:276 | with no profiles the generic "no explicit error" failure is raised and the engine is never called |
| Fallback.NonMappingIsEmpty | downloader/core.py:267-269 | a returned value that is not a mapping comes back as the empty mapping |
| Metadata.KeyCandidates | downloader/core.py:159-162 | only non-empty strings are collected from `filepath` and `_filename` |
| Metadata.RequestedPaths | downloader/core.py:164-170 | only non-empty strings are collected from `requested_downloads` |
| Metadata.Candidates | downloader/core.py:157-170 | every candidate is a non-empty path |
| Metadata.CollectCandidates | downloader/core.py:157-170 | the loop collects exactly the candidates, in order |
| Metadata.OutputPath | downloader/core.py:156-186 | a path found is non-empty and, with a forced extension, ends with it |
| Metadata.DeepestWithCandidates | downloader/core.py:172-178 | the deepest first-entry level that has candidates; no deeper level has any |
| Metadata.OutputPathIsDeepest | downloader/core.py:172-186 | the answer is the first candidate of the deepest level of the first-entry chain that has one, with the extension forced |
| Metadata.OutputPathNone | downloader/core.py:180-181 | no path is found exactly when no level of the first-entry chain has a candidate |
| Metadata.NestedTakesPrecedence | downloader/core.py:172-178 | a path found in the first entry wins over the mapping's own candidates |
| Metadata.FirstCandidateWins | downloader/core.py:180-186 | otherwise the first candidate is taken, `filepath` before `_filename`, with the extension forced |
| Metadata.ExtractOutputPath | downloader/core.py:156-186 | the imperative version returns the output path the specification defines |
| Metadata.HistoryRecord | downloader/core.py:202-209 | every record holds the six base keys |
| Metadata.HistoryRecordBase | downloader/core.py:202-209 | the base keys hold the mode, URL, status, timestamp, output directory and style given |
| Metadata.HistoryRecordSettings | downloader/core.py:210-215 | the quality keys appear exactly when given; `error` appears exactly for a non-empty message |
| Metadata.HistoryRecordInfo | downloader/core.py:217-224 | `video_id` and `title` appear exactly for a non-empty info whose field is a string; `output_file` appears exactly when an output path is found |
| Metadata.HistoryRecordKeys | downloader/core.py:189-226 | a record holds no key beyond the base, setting and info keys |
| Metadata.BuildHistoryEntry | downloader/core.py:189-226 | the imperative record builder returns the record the specification defines |
| History.HistoryFile.Append | downloader/core.py:149-153 | the file afterwards holds the list read before with the entry added at its end |
| History.AppendReplacesUnreadable | downloader/core.py:136-153 | appending to an unreadable file leaves only the new entry |
| History.AppendsAccumulate | downloader/core.py:149-153 | a run of appends leaves the earlier list followed by the new entries in order |
| Downloads.FirstFailure | downloader/core.py:299-346 | the index of the first failed URL; every URL before it succeeded |
| Downloads.BatchRecords | downloader/core.py:299-346 | one history record per attempted URL |
| Downloads.AttemptUrl | downloader/core.py:300-345 | one URL's download, with exactly its record appended to the history |
| Downloads.BatchStep | downloader/core.py:299-346 | the k-th URL appends the k-th record, and a failure there ends the batch with its error |
| Downloads.RunBatch | downloader/core.py:299-348 | the history gains exactly the records of the URLs up to and including the first failure; the result is 0 or that failure; only those URLs are attempted |
| Downloads.BatchRecordOf | downloader/core.py:317-345 | each record carries its URL and timestamp, is "success" exactly before the first failure and "failed" at it |
| Downloads.FailedRecordCarriesError | downloader/core.py:331-346 | the failed record carries the raised message (when non-empty) and nothing from an info |
| Downloads.FullSuccess | downloader/core.py:348 | when every URL succeeds, the run returns 0 after attempting them all |
| Downloads.StopsAtFailure | downloader/core.py:346 | a failure is raised and the URLs after it are never attempted |
| Downloads.DownloadVideo | downloader/core.py:351-421 | a bad quality or style is raised before any download and the history is untouched; otherwise the video job's batch runs |
| Downloads.DownloadAudio | downloader/core.py:279-348 | a bad style is raised before any download and the history is untouched; otherwise the audio job's batch runs (`download_video_to_mp3`, lines 424-494, is the same job under its own mode) |
| Downloads.VideoRecordsKeepRawQuality | downloader/core.py:398 | video records hold the quality as the caller wrote it and no bitrate |
| Downloads.AudioRecordsKeepBitrate | downloader/core.py:326 | audio records hold the bitrate and no video quality |
| Downloads.VideoAttemptOptions | downloader/core.py:363-389 | both attempts of a video download merge into MP4, extract nothing and leave playlists allowed, with the quality's format first and the fallback format second |
| Downloads.AudioAttemptOptions | downloader/core.py:288-315 | both attempts of an audio download extract MP3 at `str(quality_kbps)`, merge nothing and refuse playlists, with the audio profiles' formats in order |
| Sorting.StrLessIrreflexive | downloader/core.py:509 | no string sorts before itself |
| Sorting.StrLessAsymmetric | downloader/core.py:509 | two strings never sort before each other |
| Sorting.StrLessTransitive | downloader/core.py:509 | the string order is transitive |
| Sorting.StrLessTotal | downloader/core.py:509 | two different strings are ordered one way or the other |
| Sorting.PathLessIrreflexive | downloader/core.py:509 | no path sorts before itself |
| Sorting.PathLessAsymmetric | downloader/core.py:509 | two paths never sort before each other |
| Sorting.PathLessTransitive | downloader/core.py:509 | the path order is transitive |
| Sorting.PathLessTotal | downloader/core.py:509 | two different paths are ordered one way or the other |
| Sorting.LeastExists | downloader/core.py:509 | every non-empty set of paths has a first element |
| Sorting.Least | downloader/core.py:509 | the path chosen sorts before every other path of the set |
| Sorting.SortedPaths | downloader/core.py:509 | `sorted()` of a set of paths is strictly increasing and holds exactly the set's paths |
| Sorting.SortedUnique | downloader/core.py:509 | two strictly sorted lists with the same paths are the same list |
| Convert.Encoder.Run | downloader/core.py:533 | the command is recorded, the call succeeds as the encoder says, and only a success adds the `.mp3` file |
| Convert.RequireFfmpeg | downloader/core.py:497-499 | refuses exactly when ffmpeg is not on the PATH, with the source's message |
| Convert.FlatWithinRecursive | downloader/core.py:508-509 | every file `*.mp4` matches, `**/*.mp4` matches too |
| Convert.SiblingNeverMatches | downloader/core.py:508-515 | an `.mp3` sibling never matches either pattern, so a run never queues a file it writes |
| Convert.Queue | downloader/core.py:508-509 | the files to convert are strictly sorted and are exactly the matching files |
| Convert.Mp3Sibling | downloader/core.py:515 | the `.mp3` path keeps the directory and ends with ".mp3" |
| Convert.Mp3SiblingReplaces | downloader/core.py:515 | the sibling of `dirs / (stem + suffix)` with a plain suffix is `dirs / (stem + ".mp3")`: directories and stem survive |
| Convert.CommandShape | downloader/core.py:519-532 | the ffmpeg command has twelve words with the overwrite flag, the input, the bitrate and the output in their places |
| Convert.ConvertMp4ToMp3 | downloader/core.py:502-536 | the files written, the ffmpeg calls made and the result are those of the conversion on the state before |
| Convert.ConvertQueue | downloader/core.py:513-536 | the loop's files, calls and result are those of the specification run over the sorted queue |
| Convert.ConvertAt | downloader/core.py:514-534 | one iteration either skips, encodes, or fails at its own command, as the specification run does |
| Convert.RefusalsCallNothing | downloader/core.py:503-511 | a missing directory, missing ffmpeg and no matching file are refused in that order, exactly those three, and a refusal runs nothing and writes nothing |
| Convert.RunBounds | downloader/core.py:513-536 | at most one ffmpeg call per file, and no file is ever removed |
| Convert.RunOutcome | downloader/core.py:513-536 | the count returned is one per ffmpeg call made; a failure is the last call's, which did fail |
| Convert.Conversion | downloader/core.py:502-536 | a conversion never removes a file and makes at most one ffmpeg call per queued file |
| Convert.CountIsCalls | downloader/core.py:534-536 | the conversion returns the number of ffmpeg calls it made, or fails at its last call |
| Convert.OverwriteEncodesEvery | downloader/core.py:514-534 | with overwrite and a working ffmpeg, every queued file is encoded once, in order, and counted |
| Convert.Missing | downloader/core.py:515-517 | the files still to convert are exactly the queued ones whose `.mp3` does not exist |
| Convert.Commands | downloader/core.py:514-532 | one command per queued file, the k-th encoding the k-th file into its `.mp3` sibling |
| Convert.EncodesMissingOnly | downloader/core.py:515-517 | without overwrite, exactly the files whose `.mp3` is missing are encoded, each once and in order, and counted |
| Convert.ConvertsLoneClip | tests/test_cli.py:27-37 | a directory holding only `clip.mp4` gives one ffmpeg call writing `clip.mp3`, and a count of 1 |
| Convert.SkipsExistingClip | tests/test_cli.py:39-49 | `clip.mp4` beside an existing `clip.mp3`, without overwrite, calls ffmpeg never and returns 0 |
| Convert.HiddenClipsShareSibling | downloader/core.py:515 | `.mp4` has no suffix, so it and `.mp4.mp4` share the sibling `.mp4.mp3` |

## Left out

- `str.lower()` is modelled only on ASCII letters and the Kelvin sign. Every comparison it feeds is against a table of ASCII strings, and no other character's lower-case form is made only of ASCII characters.
- Urls.IsYouTubeUrl: the `ValueError` that `urlsplit` raises (line 87) is not modelled, neither for a malformed bracketed host nor for a host whose NFKC form gains one of `/?#@:`. It propagates out of `validate_urls` in the source; the model answers "not a YouTube URL" instead.
- `parse_qs` is modelled only as far as "does some field give `v` a non-empty value". Percent-decoding of values and `+` handling are not modelled because they cannot change that answer.
- Urls.SplitWellFormed: it covers only URLs without spaces, control characters or '#'. `SplitUrl` itself handles every string.
- The JSON text of the history file is not modelled: `json.dumps`, the indentation and `ensure_ascii`. The file is its parsed list. Non-record elements of a stored list, and a file that is not valid UTF-8, are not modelled.
- `ensure_output_dir` and the history file's `mkdir` are not modelled. They create directories and return nothing the model uses.
- The moment `datetime.now` is read is left out; the clock is a parameter giving each attempted URL its timestamp.
- An exception raised by the history append in the success path is not modelled. Such an exception would be caught by the same `except` and recorded as a failure; in the model, appends always succeed.
- The yt-dlp download itself and ffmpeg's encoding are not modelled. They are the `Engine` function and `Encoder.succeeds`.
- The partial `.mp3` that a failed ffmpeg run may leave behind is not modelled. A failed call adds no file.
- Validation.ReadUrlsFile: a path that exists but cannot be read as UTF-8 text (a directory, a file without permission, invalid UTF-8) makes `read_text` raise at line 126. The model has no such case and always returns `validate_urls`' answer for an existing file.
- Downloads.RunBatch: the download engine is a function of the URL and the option set, so a URL listed twice in one batch gets the same outcome both times. The real network may answer differently.
- Paths and Sorting follow `PurePosixPath`: '/' is the only separator, and names compare and glob case-sensitively. On Windows, `Path` also splits at `\` and globs and sorts case-insensitively, which would change the files `*.mp4` matches and the order of `sorted()` (line 509). That behaviour is not modelled.
- The file system is not modelled beyond a set of file paths relative to the input directory: no symlinks, no directories named `*.mp4`, no path normalisation. The checks `exists()` and `is_dir()` are one flag.
- Convert.Mp4Files: `**/*.mp4` is modelled as matching at any depth. Hidden files are matched like any other.
- Paths.WithSuffix: pathlib's normalisation is not modelled. For `"dl/"` the source gives `"dl.mp4"` and the model `"dl/.mp4"`. The `ValueError` for an empty name (`"/"`, `"."`) is not modelled either; the model appends the suffix.
- Paths.JoinPath: pathlib's normalisation is not modelled. For `"./out"` the source writes `out/<name>` and the model `./out/<name>`; doubled or inner `.` components are kept, not collapsed. The `output_dir` of a history record is likewise the string as given, not `str(Path(output_dir))`.
- Metadata.OutputPath: `str(Path(candidate))` is taken to be the candidate unchanged, so a candidate that pathlib would normalise (`"./a//b.mp4"`, `"a.mp4/"`) is reported as written. A candidate whose name is empty (`"/"`) makes `with_suffix` raise at line 185, inside `_build_history_entry` in the success branch. The source then records the URL as failed and re-raises (lines 331-346), while the model records a success whose `output_file` is `"/.mp4"` for a video. Convert's paths are glob results and always have a name, so they are not affected.
- Convert.EncodesMissingOnly: it is stated for queues whose `.mp3` siblings are pairwise distinct. `.mp4` and `.mp4.mp4` share one sibling, so encoding the first makes the loop skip the second (Convert.HiddenClipsShareSibling).
- The bitrate string and `quality_kbps` are passed through unchecked, as in the source. Their ranges are yt-dlp's and ffmpeg's concern.
- `validate_urls` receives strings only. The `if u` guard against `None` elements has no counterpart, because a `seq<string>` holds no `None`.
- `downloader/cli.py` and the scripts at the repository root are not part of this model.
- Concurrency is not modelled: the source runs sequentially and so does the model.
