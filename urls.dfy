/** The URL shapes the downloader accepts: `URL_RE`, `urlsplit`, `parse_qs` and `_is_youtube_url`. */
module Urls {
  import opened Text

  /** `YOUTUBE_HOSTS`: the hosts a restricted download accepts, compared after lower-casing. */
  const YouTubeHosts: set<string> :=
    {"youtube.com", "www.youtube.com", "m.youtube.com", "music.youtube.com", "youtu.be", "www.youtu.be"}

  /** `URL_RE.match(u)` with `URL_RE = ^https?://` (case-sensitive). */
  predicate HasHttpScheme(u: string) {
    StartsWith(u, "http://") || StartsWith(u, "https://")
  }

  /** The five fields of `urllib.parse.SplitResult`. */
  datatype UrlParts = UrlParts(scheme: string, netloc: string, path: string, query: string, fragment: string)

  /** The characters `urlsplit` strips from the front of a URL (C0 controls and space). */
  predicate IsC0OrSpace(c: char) {
    c <= ' '
  }

  /** The characters `urlsplit` deletes wherever they occur. */
  predicate IsUnsafe(c: char) {
    c == '\t' || c == '\r' || c == '\n'
  }

  predicate IsAsciiLetter(c: char) {
    ('a' <= c <= 'z') || ('A' <= c <= 'Z')
  }

  /** `urllib.parse.scheme_chars`. */
  predicate IsSchemeChar(c: char) {
    IsAsciiLetter(c) || ('0' <= c <= '9') || c == '+' || c == '-' || c == '.'
  }

  function RemoveUnsafe(s: string): (r: string)
    ensures forall c :: c in r <==> c in s && !IsUnsafe(c)
  {
    if s == [] then [] else (if IsUnsafe(s[0]) then [] else [s[0]]) + RemoveUnsafe(s[1..])
  }

  /** The scheme prefix `urlsplit` recognises: a letter, then scheme characters, up to the first ':'. */
  function SchemeLength(s: string): (n: nat)
    ensures n == 0 || (n < |s| && s[n] == ':' && ':' !in s[..n])
  {
    var colon := IndexOf(s, {':'});
    if 0 < colon < |s| && IsAsciiLetter(s[0]) && forall k :: 0 <= k < colon ==> IsSchemeChar(s[k]) then colon else 0
  }

  /** `urlsplit`'s clean-up: leading C0 controls and spaces dropped, then tabs and line breaks deleted. */
  function Prepare(url: string): string {
    RemoveUnsafe(TrimStart(url, IsC0OrSpace))
  }

  /** What follows the scheme and its ':' (all of `s` when there is no scheme). */
  function AfterScheme(s: string): string {
    var n := SchemeLength(s);
    if n > 0 then s[n + 1..] else s
  }

  /** The network location: after a leading "//", up to the first '/', '?' or '#'. */
  function Netloc(rest: string): (netloc: string)
    ensures '/' !in netloc && '?' !in netloc && '#' !in netloc
  {
    if StartsWith(rest, "//") then Before(rest[2..], {'/', '?', '#'}) else ""
  }

  /** What follows the network location. */
  function AfterNetloc(rest: string): string {
    if StartsWith(rest, "//") then rest[2 + IndexOf(rest[2..], {'/', '?', '#'})..] else rest
  }

  /** Python's `urlsplit(url)` (3.11 and later, fragments allowed). */
  function SplitUrl(url: string): (parts: UrlParts)
    ensures '/' !in parts.netloc && '?' !in parts.netloc && '#' !in parts.netloc
    ensures '?' !in parts.path && '#' !in parts.path && '#' !in parts.query
  {
    var s := Prepare(url);
    var n := SchemeLength(s);
    var rest := AfterScheme(s);
    var tail := AfterNetloc(rest);
    var beforeHash := Before(tail, {'#'});
    var query := After(beforeHash, {'?'});
    assert forall c :: c in query ==> c in beforeHash;
    UrlParts(if n > 0 then Lower(s[..n]) else "", Netloc(rest), Before(beforeHash, {'?'}), query, After(tail, {'#'}))
  }

  /** A query field name that `parse_qs` decodes to "v": the letter itself or its percent escape. */
  predicate IsVideoKey(name: string) {
    name == "v" || name == "%76"
  }

  /** A field `name=value` that `parse_qs` keeps (non-empty value) under the key "v". */
  predicate FieldGivesVideo(field: string) {
    var eq := IndexOf(field, {'='});
    eq < |field| && IsVideoKey(field[..eq]) && field[eq + 1..] != ""
  }

  /** `bool(parse_qs(query).get("v"))`: some '&'-separated field gives "v" a non-empty value. */
  predicate HasVideoParam(query: string) {
    exists field :: field in Split(query, '&') && FieldGivesVideo(field)
  }

  /** A query gives a video id exactly when the text on one side of an '&' does. */
  lemma VideoParamEitherSide(a: string, b: string)
    ensures HasVideoParam(a + "&" + b) <==> HasVideoParam(a) || HasVideoParam(b)
  {
    SplitAround(a, b, '&');
  }

  /** `_is_youtube_url` on the split URL: an allow-listed host, and the path shape that host needs. */
  predicate AcceptsParts(parts: UrlParts)
    ensures AcceptsParts(parts) ==> parts.netloc != "" && parts.path != ""
  {
    var host := Lower(parts.netloc);
    && host in YouTubeHosts
    && if EndsWith(host, "youtu.be") then StripBy(parts.path, c => c == '/') != ""
       else if StartsWith(parts.path, "/watch") then HasVideoParam(parts.query)
       else StartsWith(parts.path, "/shorts/") || StartsWith(parts.path, "/live/") || StartsWith(parts.path, "/playlist")
  }

  /** `_is_youtube_url`. */
  predicate IsYouTubeUrl(url: string)
    ensures IsYouTubeUrl(url) ==> SplitUrl(url).netloc != "" && SplitUrl(url).path != ""
  {
    AcceptsParts(SplitUrl(url))
  }

  // ----- How urlsplit reads a well-formed http(s) URL -----

  lemma RemoveUnsafeKeeps(s: string)
    requires forall c :: c in s ==> !IsUnsafe(c)
    ensures RemoveUnsafe(s) == s
  {
    if s != [] {
      assert s == [s[0]] + s[1..];
      RemoveUnsafeKeeps(s[1..]);
    }
  }

  /** The characters a host, path or query may hold for `SplitWellFormed`. */
  predicate Plain(s: string) {
    forall c :: c in s ==> c > ' ' && c != '#'
  }

  lemma PrepareKeeps(url: string)
    requires url != [] && url[0] > ' '
    requires forall c :: c in url ==> !IsUnsafe(c)
    ensures Prepare(url) == url
  {
    FirstKeptIs(url, IsC0OrSpace, 0);
    assert url[0..] == url;
    RemoveUnsafeKeeps(url);
  }

  lemma SchemeOf(scheme: string, rest: string)
    requires scheme == "http" || scheme == "https"
    ensures var s := scheme + ":" + rest;
            SchemeLength(s) == |scheme| && AfterScheme(s) == rest && Lower(s[..|scheme|]) == scheme
  {
    var s := scheme + ":" + rest;
    IndexOfIs(s, {':'}, |scheme|);
    assert s[..|scheme|] == scheme;
    assert s[|scheme| + 1..] == rest;
  }

  lemma NetlocOf(host: string, tail: string)
    requires '/' !in host && '?' !in host && '#' !in host
    requires tail == "" || tail[0] in {'/', '?', '#'}
    ensures Netloc("//" + host + tail) == host && AfterNetloc("//" + host + tail) == tail
  {
    var rest := "//" + host + tail;
    assert rest[2..] == host + tail;
    IndexOfIs(host + tail, {'/', '?', '#'}, |host|);
    assert (host + tail)[..|host|] == host;
    assert rest[2 + |host|..] == tail;
  }

  /** A string holding none of the stop characters is all before and nothing after. */
  lemma NoStop(s: string, stop: char)
    requires stop !in s
    ensures Before(s, {stop}) == s && After(s, {stop}) == ""
  {
    IndexOfIs(s, {stop}, |s|);
  }

  lemma QueryAt(path: string, query: string)
    requires '?' !in path
    ensures Before(path + "?" + query, {'?'}) == path && After(path + "?" + query, {'?'}) == query
  {
    var tail := path + "?" + query;
    IndexOfIs(tail, {'?'}, |path|);
    assert tail[..|path|] == path;
    assert tail[|path| + 1..] == query;
  }

  lemma PathAndQueryOf(path: string, hasQuery: bool, query: string)
    requires '?' !in path && '#' !in path && '#' !in query
    ensures var tail := path + QueryPart(hasQuery, query);
            Before(tail, {'#'}) == tail && After(tail, {'#'}) == ""
            && Before(tail, {'?'}) == path && After(tail, {'?'}) == (if hasQuery then query else "")
  {
    var tail := path + QueryPart(hasQuery, query);
    if hasQuery {
      assert tail == path + "?" + query;
      assert forall c :: c in tail ==> c in path || c == '?' || c in query;
      QueryAt(path, query);
    } else {
      assert tail == path;
      NoStop(path, '?');
    }
    NoStop(tail, '#');
  }

  /** The optional `?query` part of a URL. */
  function QueryPart(hasQuery: bool, query: string): string {
    if hasQuery then "?" + query else ""
  }

  lemma NoUnsafeIn(scheme: string, host: string, tail: string)
    requires scheme == "http" || scheme == "https"
    requires Plain(host) && Plain(tail)
    ensures forall c :: c in scheme + ":" + ("//" + host + tail) ==> !IsUnsafe(c)
  {
    assert forall c :: c in "//" + host + tail ==> c == '/' || c in host || c in tail;
    assert forall c :: c in scheme + ":" ==> IsAsciiLetter(c) || c == ':';
  }

  lemma UrlShape<T>(scheme: seq<T>, colon: seq<T>, slashes: seq<T>, host: seq<T>, path: seq<T>, q: seq<T>)
    ensures scheme + (colon + slashes) + host + path + q == scheme + colon + (slashes + host + (path + q))
  {}

  /** `urlsplit` on `scheme:` followed by `//host` and then a path with an optional query. */
  lemma SplitPieces(scheme: string, host: string, path: string, hasQuery: bool, query: string)
    requires scheme == "http" || scheme == "https"
    requires Plain(host) && Plain(path) && Plain(query)
    requires '/' !in host && '?' !in host
    requires '?' !in path
    requires path == "" || path[0] == '/'
    ensures SplitUrl(scheme + ":" + ("//" + host + (path + QueryPart(hasQuery, query))))
            == UrlParts(scheme, host, path, if hasQuery then query else "", "")
  {
    var tail := path + QueryPart(hasQuery, query);
    var rest := "//" + host + tail;
    var url := scheme + ":" + rest;
    assert Plain(tail);
    NoUnsafeIn(scheme, host, tail);
    PrepareKeeps(url);
    SchemeOf(scheme, rest);
    NetlocOf(host, tail);
    PathAndQueryOf(path, hasQuery, query);
  }

  /**
   * For `scheme://host/path?query`, with a host free of separators and
   * no '#', space or control character anywhere, `urlsplit` returns exactly
   * those pieces (with an empty fragment).
   */
  lemma SplitWellFormed(scheme: string, host: string, path: string, hasQuery: bool, query: string)
    requires scheme == "http" || scheme == "https"
    requires Plain(host) && Plain(path) && Plain(query)
    requires '/' !in host && '?' !in host
    requires '?' !in path
    requires path == "" || path[0] == '/'
    ensures SplitUrl(scheme + "://" + host + path + QueryPart(hasQuery, query))
            == UrlParts(scheme, host, path, if hasQuery then query else "", "")
  {
    assert "://" == ":" + "//";
    UrlShape(scheme, ":", "//", host, path, QueryPart(hasQuery, query));
    SplitPieces(scheme, host, path, hasQuery, query);
  }

  // ----- Which URLs the allow-list accepts -----

  lemma LowerKeepsLowercase(s: string)
    requires forall c :: c in s ==> !('A' <= c <= 'Z') && c != '\U{212A}'
    ensures Lower(s) == s
  {
    assert forall k :: 0 <= k < |s| ==> LowerChar(s[k]) == s[k] by {
      forall k | 0 <= k < |s| ensures LowerChar(s[k]) == s[k] {
        assert s[k] in s;
      }
    }
  }

  /** The four hosts that serve `/watch`, `/shorts/`, `/live/` and `/playlist` pages. */
  predicate IsLongHost(host: string) {
    host == "youtube.com" || host == "www.youtube.com" || host == "m.youtube.com" || host == "music.youtube.com"
  }

  /** The two short-link hosts. */
  predicate IsShortHost(host: string) {
    host == "youtu.be" || host == "www.youtu.be"
  }

  lemma HostIsLower(host: string)
    requires IsLongHost(host) || IsShortHost(host)
    ensures Lower(host) == host
  {
    LowerKeepsLowercase(host);
  }

  /** A host name free of separators, spaces and '#'. */
  predicate PlainHost(host: string) {
    '/' !in host && '?' !in host && Plain(host)
  }

  lemma PlainConcat(a: string, b: string)
    requires PlainHost(a) && PlainHost(b)
    ensures PlainHost(a + b)
  {
    assert forall c :: c in a + b ==> c in a || c in b;
  }

  lemma PlainPieces()
    ensures PlainHost("youtube.com") && PlainHost("youtu.be")
    ensures PlainHost("www.") && PlainHost("m.") && PlainHost("music.")
  {}

  lemma HostIsPlain(host: string)
    requires IsLongHost(host) || IsShortHost(host)
    ensures PlainHost(host)
  {
    PlainPieces();
    if host == "www.youtube.com" {
      PlainConcat("www.", "youtube.com");
    } else if host == "m.youtube.com" {
      PlainConcat("m.", "youtube.com");
    } else if host == "music.youtube.com" {
      PlainConcat("music.", "youtube.com");
    } else if host == "www.youtu.be" {
      PlainConcat("www.", "youtu.be");
    }
  }

  lemma HostEnding(host: string)
    requires IsLongHost(host) || IsShortHost(host)
    ensures EndsWith(host, "youtu.be") <==> IsShortHost(host)
  {}

  lemma HostFacts(host: string)
    requires IsLongHost(host) || IsShortHost(host)
    ensures Lower(host) == host && host in YouTubeHosts
    ensures '/' !in host && '?' !in host && Plain(host)
    ensures EndsWith(host, "youtu.be") <==> IsShortHost(host)
  {
    HostIsLower(host);
    HostIsPlain(host);
    HostEnding(host);
  }

  /** A field without '&' is the whole query; it names `v` with a value when it is `v=` and something. */
  lemma SingleVideoField(id: string)
    requires id != "" && '&' !in id
    ensures HasVideoParam("v=" + id)
  {
    var q := "v=" + id;
    assert '&' !in q;
    IndexOfIs(q, {'&'}, |q|);
    assert Split(q, '&') == [q];
    IndexOfIs(q, {'='}, 1);
    assert q[..1] == "v" && q[2..] == id;
    assert FieldGivesVideo(q);
  }

  lemma WatchUrlShape(origin: string, id: string)
    ensures origin + "/watch?v=" + id == origin + "/watch" + QueryPart(true, "v=" + id)
  {
    assert "/watch?v=" == "/watch" + "?" + "v=";
  }

  /** `http(s)://<host>/watch?v=<id>` is accepted on each of the four long hosts. */
  lemma AcceptsWatchUrl(scheme: string, host: string, id: string)
    requires scheme == "http" || scheme == "https"
    requires IsLongHost(host)
    requires id != "" && Plain(id) && '&' !in id
    ensures IsYouTubeUrl(scheme + "://" + host + "/watch?v=" + id)
  {
    HostIsPlain(host);
    WatchPiecesPlain(id);
    SplitWellFormed(scheme, host, "/watch", true, "v=" + id);
    WatchUrlShape(scheme + "://" + host, id);
    WatchPartsAccepted(scheme, host, id);
  }

  lemma WatchPiecesPlain(id: string)
    requires Plain(id)
    ensures Plain("/watch") && Plain("v=" + id) && '?' !in "/watch"
  {
    assert forall c :: c in "v=" + id ==> c == 'v' || c == '=' || c in id;
  }

  lemma WatchPartsAccepted(scheme: string, host: string, id: string)
    requires IsLongHost(host)
    requires id != "" && '&' !in id
    ensures AcceptsParts(UrlParts(scheme, host, "/watch", "v=" + id, ""))
  {
    HostFacts(host);
    SingleVideoField(id);
  }

  lemma WatchPartsRejected(scheme: string, host: string)
    requires IsLongHost(host)
    ensures !AcceptsParts(UrlParts(scheme, host, "/watch", "", ""))
  {
    HostFacts(host);
    IndexOfIs("", {'&'}, 0);
    assert Split("", '&') == [""];
  }

  /** `/watch` with no query is refused: the page names no video. */
  lemma RejectsWatchWithoutVideo(scheme: string, host: string)
    requires scheme == "http" || scheme == "https"
    requires IsLongHost(host)
    ensures !IsYouTubeUrl(scheme + "://" + host + "/watch")
  {
    HostIsPlain(host);
    SplitWellFormed(scheme, host, "/watch", false, "");
    assert scheme + "://" + host + "/watch" == scheme + "://" + host + "/watch" + QueryPart(false, "");
    WatchPartsRejected(scheme, host);
  }

  lemma ShortPartsAccepted(scheme: string, host: string, id: string)
    requires IsShortHost(host)
    requires id != "" && '/' !in id
    ensures AcceptsParts(UrlParts(scheme, host, "/" + id, "", ""))
  {
    HostFacts(host);
    var path := "/" + id;
    assert path[1] != '/';
    assert StripBy(path, c => c == '/') != "";
  }

  lemma SlashPathPlain(id: string)
    requires Plain(id) && '?' !in id
    ensures Plain("/" + id) && '?' !in "/" + id
  {}

  lemma ShortUrlShape(origin: string, id: string)
    ensures origin + "/" + id == origin + ("/" + id) + QueryPart(false, "")
  {}

  /** `http(s)://<short host>/<id>` is accepted for any non-empty id without separators. */
  lemma AcceptsShortLink(scheme: string, host: string, id: string)
    requires scheme == "http" || scheme == "https"
    requires IsShortHost(host)
    requires id != "" && Plain(id) && '/' !in id && '?' !in id
    ensures IsYouTubeUrl(scheme + "://" + host + "/" + id)
  {
    HostIsPlain(host);
    SlashPathPlain(id);
    SplitWellFormed(scheme, host, "/" + id, false, "");
    ShortUrlShape(scheme + "://" + host, id);
    ShortPartsAccepted(scheme, host, id);
  }

  lemma BareShortPartsRejected(scheme: string, host: string)
    requires IsShortHost(host)
    ensures !AcceptsParts(UrlParts(scheme, host, "/", "", ""))
  {
    HostFacts(host);
    assert forall c :: c in "/" ==> c == '/';
  }

  /** A short link whose path is the single slash "/" is refused. */
  lemma RejectsBareShortLink(scheme: string, host: string)
    requires scheme == "http" || scheme == "https"
    requires IsShortHost(host)
    ensures !IsYouTubeUrl(scheme + "://" + host + "/")
  {
    HostIsPlain(host);
    SplitWellFormed(scheme, host, "/", false, "");
    assert scheme + "://" + host + "/" == scheme + "://" + host + "/" + QueryPart(false, "");
    BareShortPartsRejected(scheme, host);
  }

  /** The pages besides `/watch` that a long host serves: a short, a live stream or a playlist. */
  predicate IsPagePath(path: string) {
    StartsWith(path, "/shorts/") || StartsWith(path, "/live/") || StartsWith(path, "/playlist")
  }

  lemma PagePartsDecided(scheme: string, host: string, path: string)
    requires IsLongHost(host) && !StartsWith(path, "/watch")
    ensures AcceptsParts(UrlParts(scheme, host, path, "", "")) <==> IsPagePath(path)
  {
    HostFacts(host);
  }

  /** On `/watch`, a long host accepts the URL exactly when its query gives `v` a non-empty value. */
  lemma WatchPartsDecided(scheme: string, host: string, path: string, query: string)
    requires IsLongHost(host) && StartsWith(path, "/watch")
    ensures AcceptsParts(UrlParts(scheme, host, path, query, "")) <==> HasVideoParam(query)
  {
    HostFacts(host);
  }

  /** Off `/watch`, a long host accepts a path exactly when it opens one of those pages. */
  lemma LongHostPages(scheme: string, host: string, path: string)
    requires scheme == "http" || scheme == "https"
    requires IsLongHost(host)
    requires Plain(path) && '?' !in path && (path == "" || path[0] == '/')
    requires !StartsWith(path, "/watch")
    ensures IsYouTubeUrl(scheme + "://" + host + path) <==> IsPagePath(path)
  {
    HostIsPlain(host);
    SplitWellFormed(scheme, host, path, false, "");
    assert scheme + "://" + host + path == scheme + "://" + host + path + QueryPart(false, "");
    PagePartsDecided(scheme, host, path);
  }

  /** Any host outside the allow-list is refused, whatever its path. */
  lemma RejectsOtherHosts(url: string)
    requires Lower(SplitUrl(url).netloc) !in YouTubeHosts
    ensures !IsYouTubeUrl(url)
  {}
}
