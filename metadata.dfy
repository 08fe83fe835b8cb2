/** The metadata yt-dlp returns, the output path read from it, and the history record of one attempt. */
module Metadata {
  import opened Wrappers
  import opened Text
  import opened Paths

  // ----- The loosely shaped info mapping -----

  /** A key that should hold a string: missing, a string, or some other value. */
  datatype Field = Missing | Text(text: string) | NotText

  /** A key that should hold a list: missing, some other value, or a list. */
  datatype Listing<T> = Absent | NotAList | Items(items: seq<T>)

  /** An element of `requested_downloads`: a mapping with its `filepath` key, or something else. */
  datatype Download = DownloadDict(filepath: Field) | DownloadOther

  /** An element of `entries`: a nested info mapping, or something else. */
  datatype Entry = EntryDict(info: Info) | EntryOther

  /**
   * The keys of an info mapping the downloader reads; `otherKeys` says whether
   * the mapping holds any key besides these.
   */
  datatype Info = Info(
    id: Field,
    title: Field,
    filepath: Field,
    filename: Field,
    requested: Listing<Download>,
    entries: Listing<Entry>,
    otherKeys: bool)

  /** Python truthiness of the mapping: it holds at least one key. */
  predicate NonEmpty(info: Info) {
    || !info.id.Missing? || !info.title.Missing? || !info.filepath.Missing? || !info.filename.Missing?
    || !info.requested.Absent? || !info.entries.Absent? || info.otherKeys
  }

  /** A key that is a non-empty string. */
  predicate IsPath(f: Field) {
    f.Text? && f.text != ""
  }

  /** The candidates from the `filepath` and `_filename` keys, in that order. */
  function KeyCandidates(info: Info): (c: seq<string>)
    ensures forall k :: 0 <= k < |c| ==> c[k] != ""
  {
    (if IsPath(info.filepath) then [info.filepath.text] else [])
    + (if IsPath(info.filename) then [info.filename.text] else [])
  }

  /** The non-empty `filepath` values of the requested downloads, in order. */
  function RequestedPaths(items: seq<Download>): (c: seq<string>)
    ensures forall k :: 0 <= k < |c| ==> c[k] != ""
  {
    if items == [] then []
    else
      var last := items[|items| - 1];
      RequestedPaths(items[..|items| - 1])
      + (if last.DownloadDict? && IsPath(last.filepath) then [last.filepath.text] else [])
  }

  /** Every candidate output path of one mapping, in priority order. */
  function Candidates(info: Info): (c: seq<string>)
    ensures forall k :: 0 <= k < |c| ==> c[k] != ""
  {
    KeyCandidates(info) + (if info.requested.Items? then RequestedPaths(info.requested.items) else [])
  }

  /** The first element of `entries`, when it is a mapping. */
  function FirstEntry(info: Info): Option<Info> {
    if info.entries.Items? && info.entries.items != [] && info.entries.items[0].EntryDict?
    then Some(info.entries.items[0].info) else None
  }

  /** The path, with its suffix replaced when a non-empty `force_ext` is given. */
  function Forced(path: string, forceExt: Option<string>): string {
    if forceExt.Some? && forceExt.value != "" then WithSuffix(path, forceExt.value) else path
  }

  /** `_extract_output_path(info, force_ext)`: a path from the first entry wins, else this mapping's first candidate. */
  function OutputPath(info: Info, forceExt: Option<string>): (r: Option<string>)
    ensures r.Some? ==> r.value != ""
    ensures r.Some? && forceExt.Some? && forceExt.value != "" ==> EndsWith(r.value, forceExt.value)
    decreases info
  {
    var nested := if FirstEntry(info).Some? then OutputPath(FirstEntry(info).value, forceExt) else None;
    if nested.Some? && nested.value != "" then nested
    else
      var candidates := Candidates(info);
      if candidates == [] then None else Some(Forced(candidates[0], forceExt))
  }

  /** The candidates of `info`, of its first entry, of that entry's first entry, and so on. */
  function Chain(info: Info): (chain: seq<Info>)
    ensures |chain| >= 1 && chain[0] == info
    decreases info
  {
    [info] + (if FirstEntry(info).Some? then Chain(FirstEntry(info).value) else [])
  }

  /** The index of the deepest mapping in `chain` that has candidates, or -1. */
  function DeepestWithCandidates(chain: seq<Info>): (i: int)
    ensures -1 <= i < |chain|
    ensures 0 <= i ==> Candidates(chain[i]) != []
    ensures forall k :: i < k < |chain| ==> Candidates(chain[k]) == []
  {
    if chain == [] then -1
    else if Candidates(chain[|chain| - 1]) != [] then |chain| - 1
    else DeepestWithCandidates(chain[..|chain| - 1])
  }

  /** The output path read off the whole chain at once: the first candidate of its deepest mapping that has one. */
  function ChainOutputPath(info: Info, forceExt: Option<string>): Option<string> {
    var chain := Chain(info);
    var i := DeepestWithCandidates(chain);
    if i < 0 then None else Some(Forced(Candidates(chain[i])[0], forceExt))
  }

  lemma DeepestIs(chain: seq<Info>, i: int)
    requires -1 <= i < |chain|
    requires 0 <= i ==> Candidates(chain[i]) != []
    requires forall k :: i < k < |chain| ==> Candidates(chain[k]) == []
    ensures DeepestWithCandidates(chain) == i
  {}

  /** Putting a mapping in front of a chain shifts its deepest index, or makes the new head the deepest. */
  lemma DeepestPrepend(head: Info, rest: seq<Info>)
    ensures var j := DeepestWithCandidates(rest);
            DeepestWithCandidates([head] + rest) == (if j >= 0 then j + 1 else if Candidates(head) != [] then 0 else -1)
  {
    var chain := [head] + rest;
    var j := DeepestWithCandidates(rest);
    assert forall k :: 1 <= k < |chain| ==> chain[k] == rest[k - 1];
    DeepestIs(chain, if j >= 0 then j + 1 else if Candidates(head) != [] then 0 else -1);
  }

  /** A forced path is never empty, so a nested answer is taken exactly when there is one. */
  lemma ForcedNonEmpty(path: string, forceExt: Option<string>)
    requires path != ""
    ensures Forced(path, forceExt) != ""
  {}

  /** Reading the chain from its head: the answer of the rest of the chain if it has one, else the head's own. */
  lemma ChainOutputPathStep(info: Info, forceExt: Option<string>)
    ensures var own := if Candidates(info) == [] then None else Some(Forced(Candidates(info)[0], forceExt));
            if FirstEntry(info).Some? && ChainOutputPath(FirstEntry(info).value, forceExt).Some?
            then ChainOutputPath(info, forceExt) == ChainOutputPath(FirstEntry(info).value, forceExt)
            else ChainOutputPath(info, forceExt) == own
  {
    var sub := if FirstEntry(info).Some? then Chain(FirstEntry(info).value) else [];
    assert Chain(info) == [info] + sub;
    DeepestPrepend(info, sub);
    var j := DeepestWithCandidates(sub);
    if j >= 0 {
      assert Chain(info)[j + 1] == sub[j];
    }
  }

  /** The recursion of `_extract_output_path` agrees with the chain reading. */
  lemma {:induction false} OutputPathIsDeepest(info: Info, forceExt: Option<string>)
    ensures OutputPath(info, forceExt) == ChainOutputPath(info, forceExt)
    decreases info
  {
    ChainOutputPathStep(info, forceExt);
    if FirstEntry(info).Some? {
      OutputPathIsDeepest(FirstEntry(info).value, forceExt);
    }
  }

  /** There is no output path exactly when no mapping along the chain of first entries has a candidate. */
  lemma OutputPathNone(info: Info, forceExt: Option<string>)
    ensures OutputPath(info, forceExt).None? <==> forall m :: m in Chain(info) ==> Candidates(m) == []
  {
    OutputPathIsDeepest(info, forceExt);
    var chain := Chain(info);
    var i := DeepestWithCandidates(chain);
    if i >= 0 {
      assert chain[i] in chain;
    } else {
      forall m | m in chain ensures Candidates(m) == [] {
        var k :| 0 <= k < |chain| && chain[k] == m;
      }
    }
  }

  /** A path from the first entry takes precedence over this mapping's own candidates. */
  lemma NestedTakesPrecedence(info: Info, forceExt: Option<string>)
    requires FirstEntry(info).Some? && OutputPath(FirstEntry(info).value, forceExt).Some?
    ensures OutputPath(info, forceExt) == OutputPath(FirstEntry(info).value, forceExt)
  {}

  /** Without a nested answer, the first candidate wins: `filepath`, then `_filename`, then the requested downloads. */
  lemma FirstCandidateWins(info: Info, forceExt: Option<string>)
    requires FirstEntry(info).None? || OutputPath(FirstEntry(info).value, forceExt).None?
    requires Candidates(info) != []
    ensures OutputPath(info, forceExt) == Some(Forced(Candidates(info)[0], forceExt))
    ensures IsPath(info.filepath) ==> OutputPath(info, forceExt) == Some(Forced(info.filepath.text, forceExt))
    ensures !IsPath(info.filepath) && IsPath(info.filename) ==>
              OutputPath(info, forceExt) == Some(Forced(info.filename.text, forceExt))
  {}

  /** The candidate loops of `_extract_output_path`: the two keys, then the requested downloads. */
  method CollectCandidates(info: Info) returns (candidates: seq<string>)
    ensures candidates == Candidates(info)
  {
    candidates := [];
    var keys := [info.filepath, info.filename];
    for k := 0 to 2
      invariant candidates == (if k >= 1 && IsPath(keys[0]) then [keys[0].text] else [])
                              + (if k >= 2 && IsPath(keys[1]) then [keys[1].text] else [])
    {
      if keys[k].Text? && keys[k].text != "" {
        candidates := candidates + [keys[k].text];
      }
    }
    assert candidates == KeyCandidates(info);
    if info.requested.Items? {
      var items := info.requested.items;
      for k := 0 to |items|
        invariant candidates == KeyCandidates(info) + RequestedPaths(items[..k])
      {
        assert items[..k + 1][..k] == items[..k];
        var item := items[k];
        if item.DownloadDict? && item.filepath.Text? && item.filepath.text != "" {
          candidates := candidates + [item.filepath.text];
        }
      }
      assert items[..|items|] == items;
    }
  }

  /** `_extract_output_path`: collect the candidates, try the first entry, then take the first candidate. */
  method ExtractOutputPath(info: Info, forceExt: Option<string>) returns (r: Option<string>)
    ensures r == OutputPath(info, forceExt)
    decreases info
  {
    var candidates := CollectCandidates(info);
    if info.entries.Items? && info.entries.items != [] && info.entries.items[0].EntryDict? {
      var nested := ExtractOutputPath(info.entries.items[0].info, forceExt);
      if nested.Some? && nested.value != "" {
        return nested;
      }
    }
    if candidates == [] {
      return None;
    }
    var path := candidates[0];
    if forceExt.Some? && forceExt.value != "" {
      path := WithSuffix(path, forceExt.value);
    }
    return Some(path);
  }

  // ----- _build_history_entry -----

  datatype Mode = Video | Audio | VideoToAudio

  function ModeName(mode: Mode): string {
    match mode
    case Video => "video"
    case Audio => "audio"
    case VideoToAudio => "video-to-audio"
  }

  datatype Status = Success | Failed

  function StatusName(status: Status): string {
    if status == Success then "success" else "failed"
  }

  /** The JSON values a history record holds. */
  datatype Json = JStr(s: string) | JInt(i: int)

  /** One record of the history file: a mapping from key to value. */
  type HistoryEntry = map<string, Json>

  /** The keys every record has. */
  const BaseKeys: set<string> := {"timestamp_utc", "mode", "url", "status", "output_dir", "filename_style"}

  /** The keys a record has when the call passes the matching setting. */
  const SettingKeys: set<string> := {"video_quality", "audio_quality_kbps", "error"}

  /** The keys a record takes from a non-empty info. */
  const InfoKeys: set<string> := {"video_id", "title", "output_file"}

  /** The arguments of one `_build_history_entry` call; the clock reading is `timestamp`. */
  datatype EntryArgs = EntryArgs(
    timestamp: string,
    mode: Mode,
    url: string,
    status: Status,
    outputDir: string,
    info: Option<Info>,
    error: Option<string>,
    videoQuality: Option<string>,
    audioQualityKbps: Option<int>,
    filenameStyle: string,
    forceExt: Option<string>)

  /** The record `_build_history_entry` returns: the base keys, and each optional key only under its condition. */
  function HistoryRecord(a: EntryArgs): (e: HistoryEntry)
    ensures BaseKeys <= e.Keys
  {
    WithInfoKeys(a, WithSettingKeys(a, BaseRecord(a)))
  }

  /** The six keys every record starts with. */
  function BaseRecord(a: EntryArgs): (e: HistoryEntry)
    ensures e.Keys == BaseKeys
  {
    map[
      "timestamp_utc" := JStr(a.timestamp), "mode" := JStr(ModeName(a.mode)), "url" := JStr(a.url),
      "status" := JStr(StatusName(a.status)), "output_dir" := JStr(a.outputDir),
      "filename_style" := JStr(a.filenameStyle)]
  }

  /** `video_quality`, `audio_quality_kbps` and `error`, each added under its condition. */
  function WithSettingKeys(a: EntryArgs, base: HistoryEntry): (e: HistoryEntry)
    ensures base.Keys <= e.Keys <= base.Keys + SettingKeys
    ensures forall k :: k in base && k !in SettingKeys ==> e[k] == base[k]
  {
    var q := if a.videoQuality.Some? then base["video_quality" := JStr(a.videoQuality.value)] else base;
    var k := if a.audioQualityKbps.Some? then q["audio_quality_kbps" := JInt(a.audioQualityKbps.value)] else q;
    if a.error.Some? && a.error.value != "" then k["error" := JStr(a.error.value)] else k
  }

  /** `video_id`, `title` and `output_file`, added only for a non-empty info. */
  function WithInfoKeys(a: EntryArgs, base: HistoryEntry): (e: HistoryEntry)
    ensures base.Keys <= e.Keys <= base.Keys + InfoKeys
    ensures forall k :: k in base && k !in InfoKeys ==> e[k] == base[k]
  {
    if a.info.Some? && NonEmpty(a.info.value) then
      var info := a.info.value;
      var withId := if info.id.Text? then base["video_id" := JStr(info.id.text)] else base;
      var withTitle := if info.title.Text? then withId["title" := JStr(info.title.text)] else withId;
      var out := OutputPath(info, a.forceExt);
      if out.Some? then withTitle["output_file" := JStr(out.value)] else withTitle
    else base
  }

  /** The six base keys hold the call's own values. */
  lemma HistoryRecordBase(a: EntryArgs)
    ensures var e := HistoryRecord(a);
            && e["mode"] == JStr(ModeName(a.mode)) && e["url"] == JStr(a.url)
            && e["status"] == JStr(StatusName(a.status)) && e["timestamp_utc"] == JStr(a.timestamp)
            && e["output_dir"] == JStr(a.outputDir) && e["filename_style"] == JStr(a.filenameStyle)
  {
    KeySetsDisjoint();
    var base := BaseRecord(a);
    assert base["mode"] == JStr(ModeName(a.mode)) && base["url"] == JStr(a.url);
    assert base["status"] == JStr(StatusName(a.status)) && base["timestamp_utc"] == JStr(a.timestamp);
    assert base["output_dir"] == JStr(a.outputDir) && base["filename_style"] == JStr(a.filenameStyle);
  }

  /** The settings keys appear exactly when given; `error` only when it is a non-empty message. */
  lemma HistoryRecordSettings(a: EntryArgs)
    ensures var e := HistoryRecord(a);
            && ("video_quality" in e <==> a.videoQuality.Some?)
            && ("video_quality" in e ==> e["video_quality"] == JStr(a.videoQuality.value))
            && ("audio_quality_kbps" in e <==> a.audioQualityKbps.Some?)
            && ("audio_quality_kbps" in e ==> e["audio_quality_kbps"] == JInt(a.audioQualityKbps.value))
            && ("error" in e <==> a.error.Some? && a.error.value != "")
            && ("error" in e ==> e["error"] == JStr(a.error.value))
  {
    var base := BaseRecord(a);
    var settings := WithSettingKeys(a, base);
    KeySetsDisjoint();
    assert "video_quality" in settings <==> a.videoQuality.Some?;
    assert "audio_quality_kbps" in settings <==> a.audioQualityKbps.Some?;
    assert "error" in settings <==> a.error.Some? && a.error.value != "";
  }

  lemma KeySetsDisjoint()
    ensures BaseKeys !! SettingKeys && BaseKeys !! InfoKeys && SettingKeys !! InfoKeys
  {}

  /** What `WithInfoKeys` adds to a record that has none of the info keys yet. */
  lemma InfoLayer(a: EntryArgs, base: HistoryEntry)
    requires base.Keys !! InfoKeys
    ensures var e := WithInfoKeys(a, base);
            var given := a.info.Some? && NonEmpty(a.info.value);
            && ("video_id" in e <==> given && a.info.value.id.Text?)
            && ("video_id" in e ==> e["video_id"] == JStr(a.info.value.id.text))
            && ("title" in e <==> given && a.info.value.title.Text?)
            && ("title" in e ==> e["title"] == JStr(a.info.value.title.text))
            && ("output_file" in e <==> given && OutputPath(a.info.value, a.forceExt).Some?)
            && ("output_file" in e ==> e["output_file"] == JStr(OutputPath(a.info.value, a.forceExt).value))
  {}

  /** The keys read from the info appear only for a non-empty info, each under its own condition. */
  lemma HistoryRecordInfo(a: EntryArgs)
    ensures var e := HistoryRecord(a);
            var given := a.info.Some? && NonEmpty(a.info.value);
            && ("video_id" in e <==> given && a.info.value.id.Text?)
            && ("video_id" in e ==> e["video_id"] == JStr(a.info.value.id.text))
            && ("title" in e <==> given && a.info.value.title.Text?)
            && ("title" in e ==> e["title"] == JStr(a.info.value.title.text))
            && ("output_file" in e <==> given && OutputPath(a.info.value, a.forceExt).Some?)
            && ("output_file" in e ==> e["output_file"] == JStr(OutputPath(a.info.value, a.forceExt).value))
  {
    KeySetsDisjoint();
    InfoLayer(a, WithSettingKeys(a, BaseRecord(a)));
  }

  /** A record holds no key beyond the base ones and the six optional ones. */
  lemma HistoryRecordKeys(a: EntryArgs)
    ensures HistoryRecord(a).Keys <= BaseKeys + SettingKeys + InfoKeys
  {}

  /** `_build_history_entry`, adding each optional key in turn. */
  method BuildHistoryEntry(a: EntryArgs) returns (entry: HistoryEntry)
    ensures entry == HistoryRecord(a)
  {
    entry := map[
      "timestamp_utc" := JStr(a.timestamp), "mode" := JStr(ModeName(a.mode)), "url" := JStr(a.url),
      "status" := JStr(StatusName(a.status)), "output_dir" := JStr(a.outputDir),
      "filename_style" := JStr(a.filenameStyle)];
    if a.videoQuality.Some? {
      entry := entry["video_quality" := JStr(a.videoQuality.value)];
    }
    if a.audioQualityKbps.Some? {
      entry := entry["audio_quality_kbps" := JInt(a.audioQualityKbps.value)];
    }
    if a.error.Some? && a.error.value != "" {
      entry := entry["error" := JStr(a.error.value)];
    }
    assert entry == WithSettingKeys(a, BaseRecord(a));
    if a.info.Some? && NonEmpty(a.info.value) {
      entry := AddInfoKeys(a, entry);
    }
  }

  /** The `if info:` block of `_build_history_entry`. */
  method AddInfoKeys(a: EntryArgs, base: HistoryEntry) returns (entry: HistoryEntry)
    requires a.info.Some? && NonEmpty(a.info.value)
    ensures entry == WithInfoKeys(a, base)
  {
    var info := a.info.value;
    entry := base;
    if info.id.Text? {
      entry := entry["video_id" := JStr(info.id.text)];
    }
    if info.title.Text? {
      entry := entry["title" := JStr(info.title.text)];
    }
    var out := ExtractOutputPath(info, a.forceExt);
    if out.Some? {
      entry := entry["output_file" := JStr(out.value)];
    }
  }
}
