/** `require_ffmpeg` and `convert_mp4_to_mp3`: turn the `.mp4` files of a directory into `.mp3` files. */
module Convert {
  import opened Wrappers
  import opened Text
  import opened Paths
  import opened Validation
  import opened Sorting

  /** How a conversion run fails: one of the input checks, or an ffmpeg call with a non-zero exit status. */
  datatype ConvertError =
    | Refused(error: ValidationError)
    | ProcessFailed(command: seq<string>)  // `subprocess.CalledProcessError` for this command

  /** The input directory, with the files below it as component paths. */
  class FileTree {
    /** `input_dir.exists() and input_dir.is_dir()`. */
    const isDir: bool
    var files: set<RelPath>

    constructor (isDir: bool, files: set<RelPath>)
      ensures this.isDir == isDir && this.files == files
    {
      this.isDir := isDir;
      this.files := files;
    }

    /** `Path.exists()` for a path below the input directory. */
    predicate Exists(p: RelPath)
      reads this
    {
      p in files
    }
  }

  /** The ffmpeg executable: whether `shutil.which` finds it, what each call exits with, and the calls made. */
  class Encoder {
    const onPath: bool
    const succeeds: seq<string> -> bool
    var calls: seq<seq<string>>

    constructor (onPath: bool, succeeds: seq<string> -> bool)
      ensures this.onPath == onPath && this.succeeds == succeeds && calls == []
    {
      this.onPath := onPath;
      this.succeeds := succeeds;
      calls := [];
    }

    /** `subprocess.run(cmd, check=True)`: the call is logged, and a zero exit leaves `output` written. */
    method Run(cmd: seq<string>, tree: FileTree, output: RelPath) returns (ok: bool)
      modifies this, tree
      ensures calls == old(calls) + [cmd]
      ensures ok == succeeds(cmd)
      ensures tree.files == if ok then old(tree.files) + {output} else old(tree.files)
    {
      calls := calls + [cmd];
      ok := succeeds(cmd);
      if ok {
        tree.files := tree.files + {output};
      }
    }
  }

  /** `require_ffmpeg()`: nothing when ffmpeg is on the `PATH`, the validation error otherwise. */
  function RequireFfmpeg(onPath: bool): (r: Option<ValidationError>)
    ensures r.None? <==> onPath
    ensures r.Some? ==> Message(r.value) == "ffmpeg is required but was not found in PATH."
  {
    if onPath then None else Some(NoFfmpeg)
  }

  // A path the `*.mp4` pattern, or `**/*.mp4` when `recursive`, matches.
  predicate IsMp4Match(p: RelPath, recursive: bool) {
    p != [] && (recursive || |p| == 1) && EndsWith(p[|p| - 1], ".mp4")
  }

  /** `input_dir.glob(pattern)` over the files of the tree. */
  function Mp4Files(files: set<RelPath>, recursive: bool): (found: set<RelPath>)
    ensures forall p :: p in found <==> p in files && IsMp4Match(p, recursive)
  {
    set p | p in files && IsMp4Match(p, recursive)
  }

  /** `mp4_file.with_suffix(".mp3")`: the final component's suffix replaced, the directories kept. */
  function Mp3Sibling(p: RelPath): (q: RelPath)
    requires p != []
    ensures |q| == |p| && q[..|p| - 1] == p[..|p| - 1]
    ensures EndsWith(q[|q| - 1], ".mp3")
  {
    p[..|p| - 1] + [WithSuffix(p[|p| - 1], ".mp3")]
  }

  /** Every file the flat pattern matches, the recursive one matches too. */
  lemma FlatWithinRecursive(files: set<RelPath>)
    ensures Mp4Files(files, false) <= Mp4Files(files, true)
  {}

  /** An `.mp3` sibling is never an `.mp4` match: a run never queues a file it writes. */
  lemma SiblingNeverMatches(p: RelPath, recursive: bool, files: set<RelPath>)
    requires p != []
    ensures !IsMp4Match(Mp3Sibling(p), recursive)
    ensures Mp3Sibling(p) !in Mp4Files(files, recursive)
  {
    var name := Mp3Sibling(p)[|p| - 1];
    assert name[|name| - 1] == '3';
  }

  /** The `.mp3` sibling keeps the directories and the stem of the name; only the suffix changes. */
  /** The sibling of a path is read off its last component. */
  lemma Mp3SiblingOf(dirs: seq<string>, name: string)
    ensures Mp3Sibling(dirs + [name]) == dirs + [WithSuffix(name, ".mp3")]
  {
    var p := dirs + [name];
    assert p[..|p| - 1] == dirs;
  }

  lemma Mp3SiblingReplaces(dirs: seq<string>, stem: string, suffix: string)
    requires stem != "" && '/' !in stem && IsPlainSuffix(suffix)
    ensures Mp3Sibling(dirs + [stem + suffix]) == dirs + [stem + ".mp3"]
  {
    NameWithSuffix(stem, suffix, ".mp3");
    Mp3SiblingOf(dirs, stem + suffix);
  }



  /** `str(input_dir / p)`. */
  function PathText(inputDir: string, p: RelPath): string {
    JoinPath(inputDir, Join(p, '/'))
  }

  /** `-y` to overwrite an existing `.mp3`, `-n` to leave it alone. */
  function OverwriteFlag(overwrite: bool): string {
    if overwrite then "-y" else "-n"
  }

  /** The ffmpeg command line that encodes `input` into `output`. */
  function EncodeCommand(overwrite: bool, input: string, output: string, bitrate: string): seq<string> {
    ["ffmpeg", OverwriteFlag(overwrite), "-loglevel", "error", "-i", input,
     "-vn", "-acodec", "libmp3lame", "-ab", bitrate, output]
  }

  /** The command for one `.mp4` file: it writes the file's `.mp3` sibling. */
  function Command(inputDir: string, mp4: RelPath, overwrite: bool, bitrate: string): seq<string>
    requires mp4 != []
  {
    EncodeCommand(overwrite, PathText(inputDir, mp4), PathText(inputDir, Mp3Sibling(mp4)), bitrate)
  }

  /** The command reads `input`, writes `output` at the given bitrate, and passes the overwrite flag. */
  lemma CommandShape(overwrite: bool, input: string, output: string, bitrate: string)
    ensures var cmd := EncodeCommand(overwrite, input, output, bitrate);
            && |cmd| == 12 && cmd[0] == "ffmpeg" && cmd[1] == OverwriteFlag(overwrite)
            && cmd[4] == "-i" && cmd[5] == input
            && cmd[9] == "-ab" && cmd[10] == bitrate && cmd[11] == output
  {}

  /** What a run leaves behind: the files, the ffmpeg calls made, and what the function returns or raises. */
  datatype Run = Run(files: set<RelPath>, calls: seq<seq<string>>, outcome: Result<int, ConvertError>)

  /** Every path of `queue` names a file, so each has a final component. */
  predicate NoEmpty(queue: seq<RelPath>) {
    [] !in queue
  }

  /**
   * The `for mp4_file in mp4_files` loop from `queue` on, with `converted` files done
   * so far: a file whose `.mp3` exists is skipped unless `overwrite`, any other is
   * encoded, and a failed encoding ends the run. The count returned is `converted`
   * plus one per call, and a failure is the last call's.
   */
  function ConvertFrom(inputDir: string, queue: seq<RelPath>, files: set<RelPath>, converted: nat,
                       overwrite: bool, bitrate: string, succeeds: seq<string> -> bool): (run: Run)
    requires NoEmpty(queue)
    decreases |queue|
  {
    if queue == [] then Run(files, [], Ok(converted))
    else
      NoEmptyTail(queue);
      var mp3 := Mp3Sibling(queue[0]);
      if mp3 in files && !overwrite then
        ConvertFrom(inputDir, queue[1..], files, converted, overwrite, bitrate, succeeds)
      else
        var cmd := Command(inputDir, queue[0], overwrite, bitrate);
        if !succeeds(cmd) then Run(files, [cmd], Err(ProcessFailed(cmd)))
        else
          var rest := ConvertFrom(inputDir, queue[1..], files + {mp3}, converted + 1, overwrite, bitrate, succeeds);
          Run(rest.files, [cmd] + rest.calls, rest.outcome)
  }

  /** The loop makes at most one call per file and only ever adds files. */
  lemma {:induction false} RunBounds(inputDir: string, queue: seq<RelPath>, files: set<RelPath>, converted: nat,
                                     overwrite: bool, bitrate: string, succeeds: seq<string> -> bool)
    requires NoEmpty(queue)
    ensures var run := ConvertFrom(inputDir, queue, files, converted, overwrite, bitrate, succeeds);
            |run.calls| <= |queue| && files <= run.files
    decreases |queue|
  {
    if queue != [] {
      NoEmptyTail(queue);
      var mp3 := Mp3Sibling(queue[0]);
      RunBounds(inputDir, queue[1..], files, converted, overwrite, bitrate, succeeds);
      RunBounds(inputDir, queue[1..], files + {mp3}, converted + 1, overwrite, bitrate, succeeds);
    }
  }

  /**
   * The count returned is one per ffmpeg call on top of `converted`; a failure is
   * raised for the last call made, and that call did fail.
   */
  lemma {:induction false} RunOutcome(inputDir: string, queue: seq<RelPath>, files: set<RelPath>, converted: nat,
                                      overwrite: bool, bitrate: string, succeeds: seq<string> -> bool)
    requires NoEmpty(queue)
    ensures var run := ConvertFrom(inputDir, queue, files, converted, overwrite, bitrate, succeeds);
            && (run.outcome.Ok? ==> run.outcome.value == converted + |run.calls|)
            && (run.outcome.Err? ==> run.calls != [] && run.outcome.error == ProcessFailed(Last(run.calls))
                                     && !succeeds(Last(run.calls)))
    decreases |queue|
  {
    if queue != [] {
      NoEmptyTail(queue);
      var mp3 := Mp3Sibling(queue[0]);
      var cmd := Command(inputDir, queue[0], overwrite, bitrate);
      if mp3 in files && !overwrite {
        RunOutcome(inputDir, queue[1..], files, converted, overwrite, bitrate, succeeds);
      } else if succeeds(cmd) {
        var rest := ConvertFrom(inputDir, queue[1..], files + {mp3}, converted + 1, overwrite, bitrate, succeeds);
        RunOutcome(inputDir, queue[1..], files + {mp3}, converted + 1, overwrite, bitrate, succeeds);
        if rest.calls != [] {
          ConsLast(cmd, rest.calls);
        }
      }
    }
  }

  /** The files `convert_mp4_to_mp3` works through, in the order it takes them. */
  function Queue(files: set<RelPath>, recursive: bool): (queue: seq<RelPath>)
    ensures NoEmpty(queue)
    ensures StrictlySorted(queue)
    ensures forall p :: p in queue <==> p in files && IsMp4Match(p, recursive)
  {
    SortedPaths(Mp4Files(files, recursive))
  }

  /** `convert_mp4_to_mp3` as a whole: the three checks, in order, then the loop. */
  function Conversion(isDir: bool, onPath: bool, succeeds: seq<string> -> bool, files: set<RelPath>,
                      inputDir: string, overwrite: bool, recursive: bool, bitrate: string): (run: Run)
    ensures files <= run.files
    ensures |run.calls| <= |Queue(files, recursive)|
  {
    if !isDir then Run(files, [], Err(Refused(InputDirNotFound(inputDir))))
    else if RequireFfmpeg(onPath).Some? then Run(files, [], Err(Refused(RequireFfmpeg(onPath).value)))
    else
      var queue := Queue(files, recursive);
      if queue == [] then Run(files, [], Err(Refused(NoMp4Files(inputDir))))
      else
        RunBounds(inputDir, queue, files, 0, overwrite, bitrate, succeeds);
        ConvertFrom(inputDir, queue, files, 0, overwrite, bitrate, succeeds)
  }

  /** The run from `queue` on, after the calls `done`. */
  function After(done: seq<seq<string>>, run: Run): Run {
    Run(run.files, done + run.calls, run.outcome)
  }

  /** How the loop goes on from its next file. */
  lemma FirstStep(inputDir: string, mp4: RelPath, rest: seq<RelPath>, files: set<RelPath>, converted: nat,
                  overwrite: bool, bitrate: string, succeeds: seq<string> -> bool)
    requires mp4 != [] && NoEmpty(rest)
    ensures var run := ConvertFrom(inputDir, [mp4] + rest, files, converted, overwrite, bitrate, succeeds);
            var cmd := Command(inputDir, mp4, overwrite, bitrate);
            var mp3 := Mp3Sibling(mp4);
            if mp3 in files && !overwrite then
              run == ConvertFrom(inputDir, rest, files, converted, overwrite, bitrate, succeeds)
            else if !succeeds(cmd) then
              run == Run(files, [cmd], Err(ProcessFailed(cmd)))
            else
              run == After([cmd], ConvertFrom(inputDir, rest, files + {mp3}, converted + 1, overwrite, bitrate, succeeds))
  {
    TailOf(mp4, rest);
  }

  /** The first path of a queue names a file, and so does every later one. */
  lemma NoEmptyTail(queue: seq<RelPath>)
    requires NoEmpty(queue) && queue != []
    ensures queue[0] != [] && NoEmpty(queue[1..])
  {
    assert queue[0] in queue;
    assert forall p :: p in queue[1..] ==> p in queue;
  }

  /** Calls made before a run are kept in front of those the run makes. */
  lemma AfterAfter(done: seq<seq<string>>, call: seq<seq<string>>, run: Run)
    ensures After(done, After(call, run)) == After(done + call, run)
  {
    assert done + (call + run.calls) == (done + call) + run.calls;
  }

  /**
   * One file of the loop, the i-th of `mp4Files`: skipped, or encoded and counted, or
   * encoded and failed. `whole` is the run of the loop, `done` the calls already made.
   */
  method ConvertAt(tree: FileTree, encoder: Encoder, inputDir: string, mp4Files: seq<RelPath>, i: nat,
                   overwrite: bool, bitrate: string, converted: nat, ghost done: seq<seq<string>>, ghost whole: Run)
    returns (failed: Option<ConvertError>, count: nat, ghost call: seq<seq<string>>)
    requires NoEmpty(mp4Files) && i < |mp4Files|
    requires whole == After(done, ConvertFrom(inputDir, mp4Files[i..], tree.files, converted, overwrite, bitrate,
                                              encoder.succeeds))
    modifies tree, encoder
    ensures encoder.calls == old(encoder.calls) + call
    ensures failed.Some? ==>
              whole.files == tree.files && whole.calls == done + call && whole.outcome == Err(failed.value)
    ensures failed.None? ==>
              whole == After(done + call, ConvertFrom(inputDir, mp4Files[i + 1..], tree.files, count, overwrite,
                                                      bitrate, encoder.succeeds))
  {
    var mp4 := mp4Files[i];
    ghost var rest := mp4Files[i + 1..];
    SplitAt(mp4Files, i);
    var mp3 := Mp3Sibling(mp4);
    FirstStep(inputDir, mp4, rest, tree.files, converted, overwrite, bitrate, encoder.succeeds);
    if tree.Exists(mp3) && !overwrite {
      assert done + [] == done;
      return None, converted, [];
    }
    var cmd := Command(inputDir, mp4, overwrite, bitrate);
    var ok := encoder.Run(cmd, tree, mp3);
    if !ok {
      return Some(ProcessFailed(cmd)), converted, [cmd];
    }
    AfterAfter(done, [cmd], ConvertFrom(inputDir, rest, tree.files, converted + 1, overwrite, bitrate,
                                        encoder.succeeds));
    return None, converted + 1, [cmd];
  }

  /** The loop over the sorted files: its new files, calls and result are those of `ConvertFrom`. */
  method ConvertQueue(tree: FileTree, encoder: Encoder, inputDir: string, mp4Files: seq<RelPath>, overwrite: bool,
                      bitrate: string)
    returns (r: Result<int, ConvertError>)
    requires NoEmpty(mp4Files)
    modifies tree, encoder
    ensures var run := ConvertFrom(inputDir, mp4Files, old(tree.files), 0, overwrite, bitrate, encoder.succeeds);
            && tree.files == run.files
            && encoder.calls == old(encoder.calls) + run.calls
            && r == run.outcome
  {
    ghost var whole := ConvertFrom(inputDir, mp4Files, tree.files, 0, overwrite, bitrate, encoder.succeeds);
    ghost var calls0 := encoder.calls;
    ghost var done: seq<seq<string>> := [];
    var converted := 0;
    var i := 0;
    assert mp4Files[0..] == mp4Files;
    assert [] + whole.calls == whole.calls;
    while i < |mp4Files|
      invariant 0 <= i <= |mp4Files|
      invariant encoder.calls == calls0 + done
      invariant whole == After(done, ConvertFrom(inputDir, mp4Files[i..], tree.files, converted, overwrite,
                                                 bitrate, encoder.succeeds))
    {
      var failed, count;
      ghost var call;
      failed, count, call := ConvertAt(tree, encoder, inputDir, mp4Files, i, overwrite, bitrate, converted,
                                       done, whole);
      Regroup(calls0, done, call);
      if failed.Some? {
        return Err(failed.value);
      }
      done := done + call;
      converted := count;
      i := i + 1;
    }
    assert done + [] == done;
    return Ok(converted);
  }

  /**
   * `convert_mp4_to_mp3(input_dir, overwrite, recursive, bitrate)`. The new files,
   * the ffmpeg calls and the result are those of `Conversion` on the state before.
   */
  method ConvertMp4ToMp3(tree: FileTree, encoder: Encoder, inputDir: string, overwrite: bool, recursive: bool,
                         bitrate: string)
    returns (r: Result<int, ConvertError>)
    modifies tree, encoder
    ensures var run := Conversion(tree.isDir, encoder.onPath, encoder.succeeds, old(tree.files), inputDir,
                                  overwrite, recursive, bitrate);
            && tree.files == run.files
            && encoder.calls == old(encoder.calls) + run.calls
            && r == run.outcome
  {
    if !tree.isDir {
      return Err(Refused(InputDirNotFound(inputDir)));
    }
    var missing := RequireFfmpeg(encoder.onPath);
    if missing.Some? {
      return Err(Refused(missing.value));
    }
    var mp4Files := Queue(tree.files, recursive);
    if |mp4Files| == 0 {
      return Err(Refused(NoMp4Files(inputDir)));
    }
    r := ConvertQueue(tree, encoder, inputDir, mp4Files, overwrite, bitrate);
  }

  // ----- What a conversion run promises -----

  /** The command lines for `queue`, in its order. */
  function Commands(inputDir: string, queue: seq<RelPath>, overwrite: bool, bitrate: string): (cmds: seq<seq<string>>)
    requires NoEmpty(queue)
    ensures |cmds| == |queue|
    ensures forall k :: 0 <= k < |queue| ==> cmds[k] == Command(inputDir, queue[k], overwrite, bitrate)
    decreases |queue|
  {
    if queue == [] then [] else [Command(inputDir, queue[0], overwrite, bitrate)] + Commands(inputDir, queue[1..], overwrite, bitrate)
  }

  /** The files of `queue` whose `.mp3` sibling is not among `files`, in the order of `queue`. */
  function Missing(queue: seq<RelPath>, files: set<RelPath>): (todo: seq<RelPath>)
    requires NoEmpty(queue)
    ensures NoEmpty(todo)
    ensures forall p :: p in todo <==> p in queue && Mp3Sibling(p) !in files
    decreases |queue|
  {
    if queue == [] then []
    else (if Mp3Sibling(queue[0]) in files then [] else [queue[0]]) + Missing(queue[1..], files)
  }

  lemma CommandsCons(inputDir: string, p: RelPath, rest: seq<RelPath>, overwrite: bool, bitrate: string)
    requires p != [] && NoEmpty(rest)
    ensures Commands(inputDir, [p] + rest, overwrite, bitrate)
            == [Command(inputDir, p, overwrite, bitrate)] + Commands(inputDir, rest, overwrite, bitrate)
  {
    TailOf(p, rest);
  }

  /** No two files of `queue` share an `.mp3` sibling. */
  predicate DistinctSiblings(queue: seq<RelPath>)
    requires NoEmpty(queue)
  {
    forall i, j :: 0 <= i < j < |queue| ==> Mp3Sibling(queue[i]) != Mp3Sibling(queue[j])
  }

  /** An `.mp3` that no file of `queue` would produce does not change which files still need one. */
  lemma {:induction false} MissingIgnores(queue: seq<RelPath>, files: set<RelPath>, out: RelPath)
    requires NoEmpty(queue)
    requires forall k :: 0 <= k < |queue| ==> Mp3Sibling(queue[k]) != out
    ensures Missing(queue, files + {out}) == Missing(queue, files)
    decreases |queue|
  {
    if queue != [] {
      MissingIgnores(queue[1..], files, out);
    }
  }

  /** With `overwrite` and ffmpeg succeeding, every file is encoded once, in order, and all are counted. */
  lemma {:induction false} OverwriteEncodesEvery(inputDir: string, queue: seq<RelPath>, files: set<RelPath>,
                                                 converted: nat, bitrate: string, succeeds: seq<string> -> bool)
    requires NoEmpty(queue)
    requires forall cmd :: succeeds(cmd)
    ensures var run := ConvertFrom(inputDir, queue, files, converted, true, bitrate, succeeds);
            run.calls == Commands(inputDir, queue, true, bitrate) && run.outcome.Ok? && run.outcome.value == converted + |queue|
    decreases |queue|
  {
    if queue != [] {
      var rest := queue[1..];
      SplitAt(queue, 0);
      assert queue[0..] == queue;
      FirstStep(inputDir, queue[0], rest, files, converted, true, bitrate, succeeds);
      OverwriteEncodesEvery(inputDir, rest, files + {Mp3Sibling(queue[0])}, converted + 1, bitrate, succeeds);
    }
  }

  /**
   * Without `overwrite` and with ffmpeg succeeding, exactly the files whose `.mp3` does not
   * exist are encoded, each once and in order, and the count is theirs.
   */
  lemma {:induction false} EncodesMissingOnly(inputDir: string, queue: seq<RelPath>, files: set<RelPath>,
                                              converted: nat, bitrate: string, succeeds: seq<string> -> bool)
    requires NoEmpty(queue) && DistinctSiblings(queue)
    requires forall cmd :: succeeds(cmd)
    ensures var run := ConvertFrom(inputDir, queue, files, converted, false, bitrate, succeeds);
            var todo := Missing(queue, files);
            run.calls == Commands(inputDir, todo, false, bitrate) && run.outcome.Ok? && run.outcome.value == converted + |todo|
    decreases |queue|
  {
    if queue != [] {
      var rest := queue[1..];
      var mp3 := Mp3Sibling(queue[0]);
      SplitAt(queue, 0);
      assert queue[0..] == queue;
      FirstStep(inputDir, queue[0], rest, files, converted, false, bitrate, succeeds);
      assert DistinctSiblings(rest) by {
        forall i, j | 0 <= i < j < |rest|
          ensures Mp3Sibling(rest[i]) != Mp3Sibling(rest[j])
        {
          assert rest[i] == queue[i + 1] && rest[j] == queue[j + 1];
        }
      }
      if mp3 in files {
        EncodesMissingOnly(inputDir, rest, files, converted, bitrate, succeeds);
        EmptyConcat(Missing(rest, files));
      } else {
        EncodesMissingOnly(inputDir, rest, files + {mp3}, converted + 1, bitrate, succeeds);
        assert forall k :: 0 <= k < |rest| ==> Mp3Sibling(rest[k]) != mp3 by {
          forall k | 0 <= k < |rest|
            ensures Mp3Sibling(rest[k]) != mp3
          {
            assert rest[k] == queue[k + 1];
          }
        }
        MissingIgnores(rest, files, mp3);
        assert Missing(queue, files) == [queue[0]] + Missing(rest, files);
        CommandsCons(inputDir, queue[0], Missing(rest, files), false, bitrate);
      }
    }
  }

  /** The three checks come first and in this order; when one refuses, ffmpeg is never called and nothing changes. */
  lemma RefusalsCallNothing(isDir: bool, onPath: bool, succeeds: seq<string> -> bool, files: set<RelPath>,
                            inputDir: string, overwrite: bool, recursive: bool, bitrate: string)
    ensures var run := Conversion(isDir, onPath, succeeds, files, inputDir, overwrite, recursive, bitrate);
            && (!isDir ==> run.outcome == Err(Refused(InputDirNotFound(inputDir))))
            && (isDir && !onPath ==> run.outcome == Err(Refused(NoFfmpeg)))
            && (isDir && onPath && Mp4Files(files, recursive) == {} ==> run.outcome == Err(Refused(NoMp4Files(inputDir))))
            && (run.outcome.Err? && run.outcome.error.Refused? <==>
                  !isDir || !onPath || Mp4Files(files, recursive) == {})
            && (run.outcome.Err? && run.outcome.error.Refused? ==> run.calls == [] && run.files == files)
  {
    if isDir && onPath {
      var queue := Queue(files, recursive);
      if queue == [] {
        assert Mp4Files(files, recursive) == {};
      } else {
        assert queue[0] in Mp4Files(files, recursive);
        RunOutcome(inputDir, queue, files, 0, overwrite, bitrate, succeeds);
      }
    }
  }

  /** A run that completes returns the number of ffmpeg calls it made; one that fails, fails at its last call. */
  lemma CountIsCalls(isDir: bool, onPath: bool, succeeds: seq<string> -> bool, files: set<RelPath>,
                     inputDir: string, overwrite: bool, recursive: bool, bitrate: string)
    ensures var run := Conversion(isDir, onPath, succeeds, files, inputDir, overwrite, recursive, bitrate);
            && (run.outcome.Ok? ==> run.outcome.value == |run.calls|)
            && (run.outcome.Err? && run.outcome.error.ProcessFailed? ==>
                  run.calls != [] && run.outcome.error.command == Last(run.calls) && !succeeds(Last(run.calls)))
  {
    if isDir && onPath {
      var queue := Queue(files, recursive);
      if queue != [] {
        RunOutcome(inputDir, queue, files, 0, overwrite, bitrate, succeeds);
      }
    }
  }

  /** A one-file queue is that file. */
  lemma SingleQueue(files: set<RelPath>, recursive: bool, p: RelPath)
    requires Mp4Files(files, recursive) == {p}
    ensures Queue(files, recursive) == [p]
  {
    SortedUnique(Queue(files, recursive), [p]);
  }

  lemma ClipSibling()
    ensures Mp3Sibling(["clip.mp4"]) == ["clip.mp3"]
  {
    assert LastIndexOf("clip.mp4", '/') == -1;
    assert LastIndexOf("clip.mp4", '.') == 4 by {
      assert "clip.mp4"[4] == '.';
    }
    assert Stem("clip.mp4") == "clip" by {
      assert "clip.mp4"[..4] == "clip";
    }
    assert WithSuffix("clip.mp4", ".mp3") == "clip.mp3" by {
      assert "clip.mp4"[..0] + "clip" + ".mp3" == "clip.mp3";
    }
  }

  lemma ClipMatches()
    ensures IsMp4Match(["clip.mp4"], false) && !IsMp4Match(["clip.mp3"], false)
  {
    assert "clip.mp4"[8 - 4..] == ".mp4";
    assert "clip.mp3"[8 - 4..] != ".mp4" by {
      assert "clip.mp3"[8 - 4..][3] == '3';
    }
  }

  lemma LoneClipQueue()
    ensures Queue({["clip.mp4"]}, false) == [["clip.mp4"]]
  {
    ClipMatches();
    var files: set<RelPath> := {["clip.mp4"]};
    assert Mp4Files(files, false) == {["clip.mp4"]};
    SingleQueue(files, false, ["clip.mp4"]);
  }

  lemma ExistingClipQueue()
    ensures Queue({["clip.mp4"], ["clip.mp3"]}, false) == [["clip.mp4"]]
  {
    ClipMatches();
    var files: set<RelPath> := {["clip.mp4"], ["clip.mp3"]};
    assert Mp4Files(files, false) == {["clip.mp4"]};
    SingleQueue(files, false, ["clip.mp4"]);
  }

  lemma LoneClipRun(inputDir: string, bitrate: string, succeeds: seq<string> -> bool)
    requires forall cmd :: succeeds(cmd)
    ensures var run := ConvertFrom(inputDir, [["clip.mp4"]], {["clip.mp4"]}, 0, false, bitrate, succeeds);
            && run.calls == [Command(inputDir, ["clip.mp4"], false, bitrate)]
            && run.outcome.Ok? && run.outcome.value == 1
            && run.files == {["clip.mp4"], ["clip.mp3"]}
  {
    ClipSibling();
    ClipNamesDiffer();
    TailOf(["clip.mp4"], []);
    RightEmpty([["clip.mp4"]]);
  }

  lemma ClipNamesDiffer()
    ensures ["clip.mp3"] != ["clip.mp4"]
  {
    assert "clip.mp3"[7] != "clip.mp4"[7];
  }

  /** A directory holding only `clip.mp4`: ffmpeg is called once, writing `clip.mp3`, and one file is counted. */
  lemma ConvertsLoneClip(inputDir: string, bitrate: string, succeeds: seq<string> -> bool)
    requires forall cmd :: succeeds(cmd)
    ensures var run := Conversion(true, true, succeeds, {["clip.mp4"]}, inputDir, false, false, bitrate);
            && run.calls == [Command(inputDir, ["clip.mp4"], false, bitrate)]
            && run.outcome.Ok? && run.outcome.value == 1
            && run.files == {["clip.mp4"], ["clip.mp3"]}
  {
    LoneClipQueue();
    LoneClipRun(inputDir, bitrate, succeeds);
  }

  /** `clip.mp4` next to an existing `clip.mp3`, without `overwrite`: ffmpeg is never called and `0` is returned. */
  lemma SkipsExistingClip(inputDir: string, bitrate: string, succeeds: seq<string> -> bool)
    ensures var files: set<RelPath> := {["clip.mp4"], ["clip.mp3"]};
            var run := Conversion(true, true, succeeds, files, inputDir, false, false, bitrate);
            run.calls == [] && run.outcome.Ok? && run.outcome.value == 0 && run.files == files
  {
    ClipSibling();
    ExistingClipQueue();
  }

  /** `.mp4` has no suffix, so it and `.mp4.mp4` both become `.mp4.mp3`. */
  lemma HiddenClipsShareSibling()
    ensures Mp3Sibling([".mp4"]) == [".mp4.mp3"] && Mp3Sibling([".mp4.mp4"]) == [".mp4.mp3"]
  {
    assert LastIndexOf(".mp4", '/') == -1;
    assert LastIndexOf(".mp4", '.') == 0 by {
      assert ".mp4"[0] == '.';
    }
    assert LastIndexOf(".mp4.mp4", '/') == -1;
    assert LastIndexOf(".mp4.mp4", '.') == 4 by {
      assert ".mp4.mp4"[4] == '.';
    }
    assert Stem(".mp4.mp4") == ".mp4" by {
      assert ".mp4.mp4"[..4] == ".mp4";
    }
    assert ".mp4.mp4"[..0] + ".mp4" + ".mp3" == ".mp4.mp3";
    assert ".mp4"[..0] + ".mp4" + ".mp3" == ".mp4.mp3";
  }
}
