/** The string operations of Python's `str` that the downloader relies on. */
module Text {

  /** The characters for which Python's `str.isspace()` holds; `str.strip()` removes them. */
  predicate IsSpace(c: char) {
    c == ' ' || ('\t' <= c <= '\r') || ('\U{1C}' <= c <= '\U{1F}') || c == '\U{85}' || c == '\U{A0}'
    || c == '\U{1680}' || ('\U{2000}' <= c <= '\U{200A}') || c == '\U{2028}' || c == '\U{2029}'
    || c == '\U{202F}' || c == '\U{205F}' || c == '\U{3000}'
  }

  /** The index of the first character of `s` that `drop` does not accept, or `|s|`. */
  function FirstKept(s: string, drop: char -> bool): (i: nat)
    ensures i <= |s|
    ensures forall k :: 0 <= k < i ==> drop(s[k])
    ensures i < |s| ==> !drop(s[i])
  {
    if s == [] || !drop(s[0]) then 0 else 1 + FirstKept(s[1..], drop)
  }

  /** One past the index of the last character of `s` that `drop` does not accept, or 0. */
  function EndKept(s: string, drop: char -> bool): (j: nat)
    ensures j <= |s|
    ensures forall k :: j <= k < |s| ==> drop(s[k])
    ensures j > 0 ==> !drop(s[j - 1])
  {
    if s == [] || !drop(s[|s| - 1]) then |s| else EndKept(s[..|s| - 1], drop)
  }

  /** `s.lstrip(chars)`, for the characters `drop` accepts. */
  function TrimStart(s: string, drop: char -> bool): string {
    s[FirstKept(s, drop)..]
  }

  /** `s.rstrip(chars)`, for the characters `drop` accepts. */
  function TrimEnd(s: string, drop: char -> bool): string {
    s[..EndKept(s, drop)]
  }

  /** `s.strip(chars)`: what is left of `s` once the characters `drop` accepts are cut from both ends. */
  function StripBy(s: string, drop: char -> bool): (r: string)
    ensures |r| <= |s|
    ensures r != [] ==> !drop(r[0]) && !drop(r[|r| - 1])
    ensures r == [] <==> forall c :: c in s ==> drop(c)
  {
    var i := FirstKept(s, drop);
    var t := s[i..];
    var j := EndKept(t, drop);
    assert t[..j] != [] ==> t[..j][0] in s;
    assert t[..j] == [] ==> forall c :: c in s ==> drop(c) by {
      if t[..j] == [] {
        forall c | c in s ensures drop(c) {
          var k :| 0 <= k < |s| && s[k] == c;
        }
      }
    }
    t[..j]
  }

  /** Python's `s.strip()` with no argument. */
  function Strip(s: string): string {
    StripBy(s, IsSpace)
  }

  /** Python's `str.lower()` on one character, restricted to the characters whose lower-case form is ASCII. */
  function LowerChar(c: char): char {
    if 'A' <= c <= 'Z' then (c as int + 32) as char
    else if c == '\U{212A}' then 'k'  // KELVIN SIGN
    else c
  }

  function Lower(s: string): (r: string)
    ensures |r| == |s|
    ensures forall k :: 0 <= k < |s| ==> r[k] == LowerChar(s[k])
  {
    seq(|s|, k requires 0 <= k < |s| => LowerChar(s[k]))
  }

  predicate StartsWith(s: string, prefix: string) {
    |prefix| <= |s| && s[..|prefix|] == prefix
  }

  predicate EndsWith(s: string, suffix: string) {
    |suffix| <= |s| && s[|s| - |suffix|..] == suffix
  }

  predicate Contains(s: string, part: string) {
    exists i :: 0 <= i <= |s| && StartsWith(s[i..], part)
  }

  /** The index of the first character of `s` in `stops`, or `|s|` when there is none. */
  function IndexOf(s: string, stops: set<char>): (i: nat)
    ensures i <= |s|
    ensures forall k :: 0 <= k < i ==> s[k] !in stops
    ensures i < |s| ==> s[i] in stops
  {
    if s == [] || s[0] in stops then 0 else 1 + IndexOf(s[1..], stops)
  }

  /** The part of `s` before its first character in `stops`. */
  function Before(s: string, stops: set<char>): (r: string)
    ensures forall c :: c in r ==> c !in stops
    ensures StartsWith(s, r)
  {
    s[..IndexOf(s, stops)]
  }

  /** The part of `s` after its first character in `stops`, or "" when there is none. */
  function After(s: string, stops: set<char>): (r: string)
    ensures EndsWith(s, r)
  {
    var i := IndexOf(s, stops);
    if i < |s| then s[i + 1..] else ""
  }

  lemma IndexOfIs(s: string, stops: set<char>, i: nat)
    requires i <= |s|
    requires forall k :: 0 <= k < i ==> s[k] !in stops
    requires i < |s| ==> s[i] in stops
    ensures IndexOf(s, stops) == i
  {}

  /** `sep.join(parts)` for a one-character separator. */
  function Join(parts: seq<string>, sep: char): string
    decreases |parts|
  {
    if parts == [] then "" else if |parts| == 1 then parts[0] else parts[0] + [sep] + Join(parts[1..], sep)
  }

  /** `sep.join(parts)` for a separator of any length. */
  function JoinWith(parts: seq<string>, sep: string): string
    decreases |parts|
  {
    if parts == [] then "" else if |parts| == 1 then parts[0] else parts[0] + sep + JoinWith(parts[1..], sep)
  }

  /** Python's `s.split(sep)` for a one-character separator: never empty, and `Join` undoes it. */
  function Split(s: string, sep: char): (parts: seq<string>)
    ensures |parts| >= 1
    ensures forall k :: 0 <= k < |parts| ==> sep !in parts[k]
    ensures Join(parts, sep) == s
    decreases |s|
  {
    var i := IndexOf(s, {sep});
    if i == |s| then
      [s]
    else
      var rest := Split(s[i + 1..], sep);
      assert ([s[..i]] + rest)[1..] == rest;
      [s[..i]] + rest
  }

  /** The elements of `s` that `keep` accepts, in their order. */
  function Filter<T(!new)>(s: seq<T>, keep: T -> bool): (r: seq<T>)
    ensures |r| <= |s|
    ensures forall x :: x in r <==> x in s && keep(x)
  {
    if s == [] then []
    else (if keep(s[0]) then [s[0]] else []) + Filter(s[1..], keep)
  }

  // ----- Lemmas -----

  /** A string contains whatever it was assembled around. */
  lemma ContainsMiddle(pre: string, part: string, post: string)
    ensures Contains(pre + part + post, part)
  {
    var s := pre + part + post;
    assert s[|pre|..][..|part|] == part;
    assert StartsWith(s[|pre|..], part);
  }

  /** `Split` undoes `Join` when no part holds the separator. */
  lemma {:induction false} SplitJoin(parts: seq<string>, sep: char)
    requires |parts| >= 1
    requires forall k :: 0 <= k < |parts| ==> sep !in parts[k]
    ensures Split(Join(parts, sep), sep) == parts
    decreases |parts|
  {
    var s := Join(parts, sep);
    var i := IndexOf(s, {sep});
    if |parts| == 1 {
      assert sep !in s;
    } else {
      var p := parts[0];
      assert s == p + [sep] + Join(parts[1..], sep);
      assert s[|p|] == sep;
      assert forall k :: 0 <= k < |p| ==> s[k] == p[k];
      assert i == |p|;
      assert forall k :: 0 <= k < |parts| - 1 ==> parts[1..][k] == parts[k + 1];
      SplitJoin(parts[1..], sep);
      assert s[..i] == p;
      assert s[i + 1..] == Join(parts[1..], sep);
      assert parts == [p] + parts[1..];
    }
  }

  /** Two and three parts joined: each part with the separator between. */
  lemma JoinPieces(a: string, b: string, c: string, sep: char)
    ensures Join([b, c], sep) == b + [sep] + c
    ensures Join([a, b, c], sep) == a + [sep] + b + [sep] + c
  {
    assert [a, b, c][1..] == [b, c] && [b, c][1..] == [c];
  }

  /** Joining two runs of parts joins each and puts one separator between them. */
  lemma {:induction false} JoinAppend(p: seq<string>, q: seq<string>, sep: char)
    requires p != [] && q != []
    ensures Join(p + q, sep) == Join(p, sep) + [sep] + Join(q, sep)
    decreases |p|
  {
    if |p| > 1 {
      assert (p + q)[1..] == p[1..] + q;
      JoinAppend(p[1..], q, sep);
    } else {
      assert (p + q)[1..] == q;
    }
  }

  /** Splitting around one separator splits each side. */
  lemma SplitAround(a: string, b: string, sep: char)
    ensures Split(a + [sep] + b, sep) == Split(a, sep) + Split(b, sep)
  {
    var p, q := Split(a, sep), Split(b, sep);
    JoinAppend(p, q, sep);
    assert forall k :: 0 <= k < |p + q| ==> sep !in (p + q)[k] by {
      forall k | 0 <= k < |p + q| ensures sep !in (p + q)[k] {
        if k >= |p| { assert (p + q)[k] == q[k - |p|]; }
      }
    }
    SplitJoin(p + q, sep);
  }

  lemma FirstKeptIs(s: string, drop: char -> bool, i: nat)
    requires i <= |s|
    requires forall k :: 0 <= k < i ==> drop(s[k])
    requires i < |s| ==> !drop(s[i])
    ensures FirstKept(s, drop) == i
  {
  }

  lemma EndKeptIs(s: string, drop: char -> bool, j: nat)
    requires j <= |s|
    requires forall k :: j <= k < |s| ==> drop(s[k])
    requires j > 0 ==> !drop(s[j - 1])
    ensures EndKept(s, drop) == j
  {
  }

  lemma TrimStartPadded(pre: string, s: string, drop: char -> bool)
    requires forall k :: 0 <= k < |pre| ==> drop(pre[k])
    ensures TrimStart(pre + s, drop) == TrimStart(s, drop)
  {
    var i := FirstKept(s, drop);
    var u := pre + s;
    assert forall k :: 0 <= k < |pre| + i ==> drop(u[k]) by {
      forall k | 0 <= k < |pre| + i ensures drop(u[k]) {
        if k < |pre| { assert u[k] == pre[k]; } else { assert u[k] == s[k - |pre|]; }
      }
    }
    FirstKeptIs(u, drop, |pre| + i);
    assert u[|pre| + i..] == s[i..];
  }

  lemma TrimEndPadded(s: string, post: string, drop: char -> bool)
    requires forall k :: 0 <= k < |post| ==> drop(post[k])
    ensures TrimEnd(s + post, drop) == TrimEnd(s, drop)
  {
    var j := EndKept(s, drop);
    var u := s + post;
    assert forall k :: j <= k < |u| ==> drop(u[k]) by {
      forall k | j <= k < |u| ensures drop(u[k]) {
        if k < |s| { assert u[k] == s[k]; } else { assert u[k] == post[k - |s|]; }
      }
    }
    assert j > 0 ==> u[j - 1] == s[j - 1];
    EndKeptIs(u, drop, j);
    assert u[..j] == s[..j];
  }

  lemma TrimStartKeeps(s: string, post: string, drop: char -> bool)
    requires exists c :: c in s && !drop(c)
    ensures TrimStart(s + post, drop) == TrimStart(s, drop) + post
  {
    var i := FirstKept(s, drop);
    var u := s + post;
    var c :| c in s && !drop(c);
    var k :| 0 <= k < |s| && s[k] == c;
    assert i <= k;
    assert forall k :: 0 <= k < i ==> u[k] == s[k];
    FirstKeptIs(u, drop, i);
    assert u[i..] == s[i..] + post;
  }

  /** Whitespace around a token never changes what `Strip` makes of it. */
  lemma StripPadded(pre: string, s: string, post: string, drop: char -> bool)
    requires forall k :: 0 <= k < |pre| ==> drop(pre[k])
    requires forall k :: 0 <= k < |post| ==> drop(post[k])
    ensures StripBy(pre + s + post, drop) == StripBy(s, drop)
  {
    assert pre + s + post == pre + (s + post);
    TrimStartPadded(pre, s + post, drop);
    if exists c :: c in s && !drop(c) {
      TrimStartKeeps(s, post, drop);
      TrimEndPadded(TrimStart(s, drop), post, drop);
    } else {
      assert forall c :: c in s + post ==> drop(c) by {
        forall c | c in s + post ensures drop(c) {
          if c !in s {
            var k :| 0 <= k < |post| && post[k] == c;
          }
        }
      }
      assert forall c :: c in s ==> drop(c);
    }
  }

  /** Stripping twice strips nothing more. */
  lemma StripIdempotent(s: string, drop: char -> bool)
    ensures StripBy(StripBy(s, drop), drop) == StripBy(s, drop)
  {
    var r := StripBy(s, drop);
    FirstKeptIs(r, drop, 0);
    assert r[0..] == r;
    EndKeptIs(r, drop, |r|);
    assert r[..|r|] == r;
  }

  lemma LowerIdempotent(s: string)
    ensures Lower(Lower(s)) == Lower(s)
  {}

  lemma LowerKeepsSpace(c: char)
    ensures IsSpace(LowerChar(c)) == IsSpace(c)
  {}

  lemma TrimStartLower(s: string)
    ensures TrimStart(Lower(s), IsSpace) == Lower(TrimStart(s, IsSpace))
  {
    var i := FirstKept(s, IsSpace);
    forall k | 0 <= k < |s| ensures IsSpace(Lower(s)[k]) == IsSpace(s[k]) {
      LowerKeepsSpace(s[k]);
    }
    FirstKeptIs(Lower(s), IsSpace, i);
    assert Lower(s)[i..] == Lower(s[i..]);
  }

  lemma TrimEndLower(s: string)
    ensures TrimEnd(Lower(s), IsSpace) == Lower(TrimEnd(s, IsSpace))
  {
    var j := EndKept(s, IsSpace);
    forall k | 0 <= k < |s| ensures IsSpace(Lower(s)[k]) == IsSpace(s[k]) {
      LowerKeepsSpace(s[k]);
    }
    EndKeptIs(Lower(s), IsSpace, j);
    assert Lower(s)[..j] == Lower(s[..j]);
  }

  /** Lower-casing neither creates nor removes whitespace, so it commutes with `Strip`. */
  lemma StripLower(s: string)
    ensures Strip(Lower(s)) == Lower(Strip(s))
  {
    TrimStartLower(s);
    TrimEndLower(TrimStart(s, IsSpace));
  }
}
