/** The parts of `pathlib.PurePosixPath` the downloader uses, on paths written as strings. */
module Paths {
  import opened Wrappers
  import opened Text

  /**
   * `str(Path(dir) / name)` for a relative `name`, on paths already in pathlib's normal
   * form (no empty or "." components inside, no doubled '/'): `""` and `"."` stand for the
   * current directory. pathlib's own normalisation of other spellings is not modelled.
   */
  function JoinPath(dir: string, name: string): (p: string)
    ensures EndsWith(p, name)
    ensures dir != "" && dir != "." ==> StartsWith(p, dir)
  {
    if dir == "" || dir == "." then name
    else if dir[|dir| - 1] == '/' then dir + name
    else dir + "/" + name
  }

  /** The index of the last `c` in `s`, or -1 when `c` does not occur. */
  function LastIndexOf(s: string, c: char): (i: int)
    ensures -1 <= i < |s|
    ensures 0 <= i ==> s[i] == c
    ensures forall k :: i < k < |s| ==> s[k] != c
  {
    if s == [] then -1 else if s[|s| - 1] == c then |s| - 1 else LastIndexOf(s[..|s| - 1], c)
  }

  /** `Path(p).name`: what follows the last separator. */
  function BaseName(p: string): (name: string)
    ensures '/' !in name
    ensures EndsWith(p, name)
  {
    var cut := LastIndexOf(p, '/') + 1;
    assert forall k :: 0 <= k < |p| - cut ==> p[cut..][k] == p[cut + k];
    p[cut..]
  }

  /** `name[:-len(suffix)]` for `Path.suffix`: a final `.xyz` counts only when the dot is neither first nor last. */
  function Stem(name: string): (stem: string)
    ensures StartsWith(name, stem)
    ensures name != "" ==> stem != ""
  {
    var dot := LastIndexOf(name, '.');
    if 0 < dot < |name| - 1 then name[..dot] else name
  }

  /**
   * `str(Path(p).with_suffix(ext))` for a `p` in pathlib's normal form whose final
   * component is a real name: the text after the last '/' loses its suffix and gains
   * `ext`, and the text up to that '/' is kept. A trailing '/' and pathlib's
   * `ValueError` for an empty name are not modelled.
   */
  function WithSuffix(p: string, ext: string): (q: string)
    ensures EndsWith(q, ext)
    ensures var cut := LastIndexOf(p, '/') + 1; StartsWith(q, p[..cut])
  {
    var cut := LastIndexOf(p, '/') + 1;
    var q := p[..cut] + Stem(p[cut..]) + ext;
    assert q[..cut] == p[..cut];
    q
  }

  /** A suffix such as ".mp3": a dot followed by at least one character, neither a dot nor a separator. */
  predicate IsPlainSuffix(ext: string) {
    |ext| >= 2 && ext[0] == '.' && forall k :: 1 <= k < |ext| ==> ext[k] != '.' && ext[k] != '/'
  }

  lemma LastIndexOfAppend(s: string, t: string, c: char)
    requires c !in t
    ensures LastIndexOf(s + t, c) == LastIndexOf(s, c)
    decreases |t|
  {
    if t != [] {
      assert (s + t)[..|s + t| - 1] == s + t[..|t| - 1];
      LastIndexOfAppend(s, t[..|t| - 1], c);
    } else {
      assert s + t == s;
    }
  }

  /** Replacing the directory's component keeps the directory: the cut falls where it fell. */
  lemma CutKept(p: string, tail: string)
    requires '/' !in tail
    ensures var cut := LastIndexOf(p, '/') + 1;
            var q := p[..cut] + tail;
            LastIndexOf(q, '/') + 1 == cut && q[..cut] == p[..cut] && q[cut..] == tail
  {
    var cut := LastIndexOf(p, '/') + 1;
    LastIndexOfAppend(p[..cut], tail, '/');
    assert LastIndexOf(p[..cut], '/') == cut - 1 by {
      if cut > 0 {
        assert p[..cut] == p[..cut - 1] + [p[cut - 1]];
      }
    }
  }

  /** The stem of `stem + ext` is `stem` again, for a non-empty stem and a plain suffix. */
  lemma StemOfSuffixed(stem: string, ext: string)
    requires stem != "" && IsPlainSuffix(ext)
    ensures Stem(stem + ext) == stem
  {
    assert LastIndexOf(stem + ext, '.') == |stem| by {
      assert stem + ext == (stem + ['.']) + ext[1..];
      assert '.' !in ext[1..];
      LastIndexOfAppend(stem + ['.'], ext[1..], '.');
    }
    assert (stem + ext)[..|stem|] == stem;
  }

  /** `with_suffix` keeps the directory and the stem of the name, and replaces only its suffix. */
  lemma WithSuffixReplaces(dir: string, stem: string, suffix: string, ext: string)
    requires dir == "" || dir[|dir| - 1] == '/'
    requires stem != "" && '/' !in stem && IsPlainSuffix(suffix)
    ensures WithSuffix(dir + stem + suffix, ext) == dir + stem + ext
  {
    var name := stem + suffix;
    assert '/' !in name by {
      assert forall k :: 0 <= k < |name| ==> name[k] == if k < |stem| then stem[k] else suffix[k - |stem|];
    }
    assert dir + stem + suffix == dir + name;
    LastIndexOfAppend(dir, name, '/');
    var cut := LastIndexOf(dir + name, '/') + 1;
    assert cut == |dir|;
    assert (dir + name)[..cut] == dir && (dir + name)[cut..] == name;
    StemOfSuffixed(stem, suffix);
  }


  /** For a bare name, `with_suffix` keeps the stem and replaces the suffix. */
  lemma NameWithSuffix(stem: string, suffix: string, ext: string)
    requires stem != "" && '/' !in stem && IsPlainSuffix(suffix)
    ensures WithSuffix(stem + suffix, ext) == stem + ext
  {
    var name := stem + suffix;
    assert '/' !in name by {
      assert forall k :: 0 <= k < |name| ==> name[k] == if k < |stem| then stem[k] else suffix[k - |stem|];
    }
    assert LastIndexOf(name, '/') == -1;
    assert name[..0] == [] && name[0..] == name;
    StemOfSuffixed(stem, suffix);
    assert [] + stem + ext == stem + ext;
  }


  /** Forcing the same plain suffix twice changes nothing more than forcing it once. */
  lemma WithSuffixIdempotent(p: string, ext: string)
    requires BaseName(p) != ""
    requires IsPlainSuffix(ext)
    ensures WithSuffix(WithSuffix(p, ext), ext) == WithSuffix(p, ext)
  {
    var cut := LastIndexOf(p, '/') + 1;
    var name := p[cut..];
    var stem := Stem(name);
    assert '/' !in stem by {
      assert forall k :: 0 <= k < |stem| ==> stem[k] == name[k];
      assert '/' !in name;
    }
    assert '/' !in stem + ext;
    var q := WithSuffix(p, ext);
    Regroup(p[..cut], stem, ext);
    assert q == p[..cut] + (stem + ext);
    CutKept(p, stem + ext);
    StemOfSuffixed(stem, ext);
    assert q[cut..] == stem + ext;
    var again := WithSuffix(q, ext);
    assert again == q[..cut] + Stem(q[cut..]) + ext;
    assert again == p[..cut] + stem + ext;
  }

  /** The final component of a joined path is what was joined, when it holds no separator. */
  lemma BaseNameJoin(dir: string, name: string)
    requires '/' !in name
    ensures BaseName(JoinPath(dir, name)) == name
  {
    var p := JoinPath(dir, name);
    if dir == "" || dir == "." {
      assert LastIndexOf([] + name, '/') == LastIndexOf([], '/') by { LastIndexOfAppend([], name, '/'); }
      assert [] + name == name;
    } else {
      var head := if dir[|dir| - 1] == '/' then dir else dir + "/";
      assert p == head + name;
      LastIndexOfAppend(head, name, '/');
      assert LastIndexOf(head, '/') == |head| - 1 by {
        assert head[|head| - 1] == '/';
      }
    }
  }
}
