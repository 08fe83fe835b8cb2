/**
 * The order `sorted()` puts `pathlib` paths in. Paths found under one directory
 * share its components, so they compare by the components that follow it.
 */
module Sorting {
  /** A path below the input directory, one string per component. */
  type RelPath = seq<string>

  /** Python's `<` on `str`: code point by code point, with a proper prefix first. */
  predicate StrLess(a: string, b: string)
    decreases |a|
  {
    b != [] && (a == [] || a[0] < b[0] || (a[0] == b[0] && StrLess(a[1..], b[1..])))
  }

  /** `<` on `PurePosixPath`: the component lists compared as Python lists of strings. */
  predicate PathLess(a: RelPath, b: RelPath)
    decreases |a|
  {
    b != [] && (a == [] || StrLess(a[0], b[0]) || (a[0] == b[0] && PathLess(a[1..], b[1..])))
  }

  lemma {:induction false} StrLessIrreflexive(a: string)
    ensures !StrLess(a, a)
    decreases |a|
  {
    if a != [] {
      StrLessIrreflexive(a[1..]);
    }
  }

  lemma {:induction false} StrLessAsymmetric(a: string, b: string)
    requires StrLess(a, b)
    ensures !StrLess(b, a)
    decreases |a|
  {
    if a != [] && a[0] == b[0] {
      StrLessAsymmetric(a[1..], b[1..]);
    }
  }

  lemma {:induction false} StrLessTransitive(a: string, b: string, c: string)
    requires StrLess(a, b) && StrLess(b, c)
    ensures StrLess(a, c)
    decreases |a|
  {
    if a != [] && a[0] == b[0] && b[0] == c[0] {
      StrLessTransitive(a[1..], b[1..], c[1..]);
    }
  }

  /** Two different strings are ordered one way or the other. */
  lemma {:induction false} StrLessTotal(a: string, b: string)
    requires a != b
    ensures StrLess(a, b) || StrLess(b, a)
    decreases |a|
  {
    if a != [] && b != [] && a[0] == b[0] {
      assert a == [a[0]] + a[1..] && b == [b[0]] + b[1..];
      StrLessTotal(a[1..], b[1..]);
    }
  }

  lemma {:induction false} PathLessIrreflexive(a: RelPath)
    ensures !PathLess(a, a)
    decreases |a|
  {
    if a != [] {
      StrLessIrreflexive(a[0]);
      PathLessIrreflexive(a[1..]);
    }
  }

  lemma {:induction false} PathLessAsymmetric(a: RelPath, b: RelPath)
    requires PathLess(a, b)
    ensures !PathLess(b, a)
    decreases |a|
  {
    if a != [] {
      if StrLess(a[0], b[0]) {
        StrLessAsymmetric(a[0], b[0]);
      } else {
        StrLessIrreflexive(a[0]);
        PathLessAsymmetric(a[1..], b[1..]);
      }
    }
  }

  lemma {:induction false} PathLessTransitive(a: RelPath, b: RelPath, c: RelPath)
    requires PathLess(a, b) && PathLess(b, c)
    ensures PathLess(a, c)
    decreases |a|
  {
    if a != [] {
      if StrLess(a[0], b[0]) && StrLess(b[0], c[0]) {
        StrLessTransitive(a[0], b[0], c[0]);
      } else if a[0] == b[0] && b[0] == c[0] {
        PathLessTransitive(a[1..], b[1..], c[1..]);
      }
    }
  }

  /** Two different paths are ordered one way or the other. */
  lemma {:induction false} PathLessTotal(a: RelPath, b: RelPath)
    requires a != b
    ensures PathLess(a, b) || PathLess(b, a)
    decreases |a|
  {
    if a != [] && b != [] {
      if a[0] == b[0] {
        assert a == [a[0]] + a[1..] && b == [b[0]] + b[1..];
        PathLessTotal(a[1..], b[1..]);
      } else {
        StrLessTotal(a[0], b[0]);
      }
    }
  }

  /** `m` comes before every other path of `s`. */
  predicate IsLeast(m: RelPath, s: set<RelPath>) {
    m in s && forall q :: q in s && q != m ==> PathLess(m, q)
  }

  /** Every non-empty finite set of paths has a first element. */
  lemma {:induction false} LeastExists(s: set<RelPath>)
    requires s != {}
    ensures exists m :: IsLeast(m, s)
    decreases |s|
  {
    var x :| x in s;
    if s != {x} {
      var rest := s - {x};
      LeastExists(rest);
      var m :| IsLeast(m, rest);
      if PathLess(m, x) {
        assert IsLeast(m, s);
      } else {
        PathLessTotal(m, x);
        forall q | q in s && q != x
          ensures PathLess(x, q)
        {
          if q != m {
            PathLessTransitive(x, m, q);
          }
        }
        assert IsLeast(x, s);
      }
    } else {
      assert IsLeast(x, s);
    }
  }

  lemma LeastUnique(s: set<RelPath>)
    ensures forall m, n :: IsLeast(m, s) && IsLeast(n, s) ==> m == n
  {
    forall m, n | IsLeast(m, s) && IsLeast(n, s)
      ensures m == n
    {
      if m != n {
        PathLessAsymmetric(m, n);
      }
    }
  }

  /** `min(s)`: the path that sorts first. */
  function Least(s: set<RelPath>): (m: RelPath)
    requires s != {}
    ensures IsLeast(m, s)
  {
    LeastExists(s);
    LeastUnique(s);
    var m :| IsLeast(m, s); m
  }

  /** Each path of `r` sorts before every later one, so none repeats. */
  predicate StrictlySorted(r: seq<RelPath>) {
    forall i, j :: 0 <= i < j < |r| ==> PathLess(r[i], r[j])
  }

  /** `sorted(s)` of a set of paths: strictly increasing and holding exactly the paths of `s`. */
  function SortedPaths(s: set<RelPath>): (r: seq<RelPath>)
    ensures StrictlySorted(r)
    ensures forall p :: p in r <==> p in s
    ensures |r| == |s|
    decreases |s|
  {
    if s == {} then []
    else
      var m := Least(s);
      var rest := SortedPaths(s - {m});
      assert forall j :: 0 <= j < |rest| ==> PathLess(m, rest[j]) by {
        forall j | 0 <= j < |rest|
          ensures PathLess(m, rest[j])
        {
          assert rest[j] in s - {m};
        }
      }
      assert |s - {m}| == |s| - 1;
      [m] + rest
  }

  /** Sorting is determined by the set: two strictly sorted lists with the same paths are the same list. */
  lemma {:induction false} SortedUnique(r: seq<RelPath>, t: seq<RelPath>)
    requires StrictlySorted(r) && StrictlySorted(t)
    requires forall p :: p in r <==> p in t
    ensures r == t
    decreases |r|
  {
    if r != [] {
      SharedNonEmpty(r, t);
    }
    if t != [] {
      SharedNonEmpty(t, r);
    }
    if r != [] {
      if r[0] != t[0] {
        assert r[0] in t && t[0] in r;
        var i :| 0 <= i < |t| && t[i] == r[0];
        var j :| 0 <= j < |r| && r[j] == t[0];
        assert PathLess(t[0], r[0]) && PathLess(r[0], t[0]);
        PathLessAsymmetric(t[0], r[0]);
      }
      forall p
        ensures p in r[1..] <==> p in t[1..]
      {
        assert r == [r[0]] + r[1..] && t == [t[0]] + t[1..];
        if p in r[1..] {
          var i :| 1 <= i < |r| && r[i] == p;
          assert PathLess(r[0], p);
          PathLessIrreflexive(p);
          assert p in t && p != t[0];
        }
        if p in t[1..] {
          var i :| 1 <= i < |t| && t[i] == p;
          assert PathLess(t[0], p);
          PathLessIrreflexive(p);
          assert p in r && p != r[0];
        }
      }
      SortedUnique(r[1..], t[1..]);
      assert r == [r[0]] + r[1..] && t == [t[0]] + t[1..];
    }
  }

  lemma SharedNonEmpty(r: seq<RelPath>, t: seq<RelPath>)
    requires forall p :: p in r <==> p in t
    requires r != []
    ensures t != []
  {
    assert r[0] in r;
  }
}
