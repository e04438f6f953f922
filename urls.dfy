/** Python 2's `urlparse.urlparse` (without a default scheme, fragments allowed) and
    `posixpath.normpath`, as far as the certificate-URL check reads them. The parse cache of
    `urlsplit` changes no result and is left out. */
module Urls {
  import opened Outcomes
  import opened Text

  datatype ParseResult = ParseResult(scheme: string, netloc: string, path: string, params: string, query: string, fragment: string)

  /** The characters a scheme may consist of: letters, digits, `+`, `-` and `.`. */
  predicate SchemeChar(c: char) {
    'a' <= c <= 'z' || 'A' <= c <= 'Z' || '0' <= c <= '9' || c == '+' || c == '-' || c == '.'
  }

  /** The schemes whose last path segment may carry `;` parameters. */
  const USES_PARAMS: seq<string> :=
    ["", "ftp", "hdl", "prospero", "http", "imap", "https", "shttp", "rtsp", "rtspu", "sip", "sips", "mms", "sftp", "tel"]

  /** _splitnetloc(url, 2): the authority runs from position 2 up to the first `/`, `?` or `#`. */
  function SplitNetloc(url: string): (r: (string, string))
    requires |url| >= 2
    ensures r.0 + r.1 == url[2..]
    ensures '/' !in r.0 && '?' !in r.0 && '#' !in r.0
    ensures r.1 == [] || r.1[0] in "/?#"
  {
    var rest := url[2..];
    var i := Delim(rest);
    assert rest == rest[..i] + rest[i..];
    (rest[..i], rest[i..])
  }

  /** The position of the first `/`, `?` or `#`, or the length. */
  function Delim(s: string): (i: nat)
    ensures i <= |s| && (i < |s| ==> s[i] in "/?#")
    ensures forall j :: 0 <= j < i ==> s[j] !in "/?#"
  {
    if s == [] then 0
    else if s[0] in "/?#" then 0
    else 1 + Delim(s[1..])
  }

  /** `s.split(c, 1)` when `c` occurs in `s`: the text before the first `c` and after it. */
  function SplitOnce(s: string, c: char): (r: (string, string))
    requires c in s
    ensures c !in r.0 && r.0 + [c] + r.1 == s
  {
    var i := IndexOf(s, c).value;
    assert s == s[..i] + [c] + s[i + 1..];
    (s[..i], s[i + 1..])
  }

  /** The part of `urlsplit` after the scheme: the authority when the rest starts with `//`
      (a lone bracket in it is "Invalid IPv6 URL", a `ValueError`), then the fragment after
      the first `#`, then the query after the first `?`. */
  function SplitRest(scheme: string, url: string): (r: Outcome<ParseResult>)
    ensures r.Raise? ==> r.error == ValueError
    ensures r.Ok? ==> r.value.scheme == scheme
  {
    var (netloc, rest) := if StartsWith(url, "//") then SplitNetloc(url) else ("", url);
    if ('[' in netloc && ']' !in netloc) || (']' in netloc && '[' !in netloc) then Raise(ValueError)
    else
      var (beforeFragment, fragment) := if '#' in rest then SplitOnce(rest, '#') else (rest, "");
      var (path, query) := if '?' in beforeFragment then SplitOnce(beforeFragment, '?') else (beforeFragment, "");
      Ok(ParseResult(scheme, netloc, path, "", query, fragment))
  }

  /** urlsplit(url): a scheme is the text before the first `:` when that text is non-empty and
      made of scheme characters, unless what follows the colon is a non-empty run of digits
      (a port). `http` is taken at once. The scheme is lower-cased. */
  function UrlSplit(url: string): (r: Outcome<ParseResult>)
    ensures r.Raise? ==> r.error == ValueError
  {
    match IndexOf(url, ':')
    case None => SplitRest("", url)
    case Some(i) =>
      if i == 0 then SplitRest("", url)
      else if url[..i] == "http" then SplitRest(Lower(url[..i]), url[i + 1..])
      else if forall k :: 0 <= k < i ==> SchemeChar(url[k]) then
        var rest := url[i + 1..];
        if rest == "" || !AllDigits(rest) then SplitRest(Lower(url[..i]), rest)
        else SplitRest("", url)
      else SplitRest("", url)
  }

  /** _splitparams(path): the parameters follow the first `;` of the last segment. */
  function SplitParams(path: string): (r: (string, string))
    requires ';' in path
  {
    match LastIndexOf(path, '/')
    case Some(slash) =>
      (match FindFrom(path, ";", slash)
       case None => (path, "")
       case Some(i) => (path[..i], path[i + 1..]))
    case None =>
      var i := IndexOf(path, ';').value;
      (path[..i], path[i + 1..])
  }

  /** urlparse(url) */
  function UrlParse(url: string): (r: Outcome<ParseResult>)
    ensures r.Ok? ==> r.value.scheme == Lower(r.value.scheme)
    ensures r.Raise? ==> r.error == ValueError
  {
    match UrlSplit(url)
    case Raise(e) => Raise(e)
    case Ok(u) =>
      LowerIdempotentScheme(url);
      if u.scheme in USES_PARAMS && ';' in u.path then
        var (path, params) := SplitParams(u.path);
        Ok(u.(path := path, params := params))
      else Ok(u)
  }

  lemma LowerTwice(s: string)
    ensures Lower(Lower(s)) == Lower(s)
  {
  }

  /** The scheme `urlsplit` reports is lower-case. */
  lemma LowerIdempotentScheme(url: string)
    ensures UrlSplit(url).Ok? ==> UrlSplit(url).value.scheme == Lower(UrlSplit(url).value.scheme)
  {
    match IndexOf(url, ':')
    case None =>
    case Some(i) => LowerTwice(url[..i]);
  }

  // ---- posixpath.normpath ----

  /** A segment of a normalised path: not empty and free of `/`. */
  predicate Segment(c: string) { c != "" && '/' !in c }

  /** A segment that is not a dot segment. */
  predicate Clean(c: string) { Segment(c) && c != "." && c != ".." }

  /** The loop of `normpath` over the segments: empty and `.` segments are dropped, `..` removes
      the segment before it, and is kept only at the start of a relative path or after another
      `..`. */
  function NormSegments(comps: seq<string>, rooted: bool, acc: seq<string>): seq<string>
    decreases |comps|
  {
    if comps == [] then acc
    else
      var comp := comps[0];
      if comp == "" || comp == "." then NormSegments(comps[1..], rooted, acc)
      else if comp != ".." || (!rooted && acc == []) || (acc != [] && acc[|acc| - 1] == "..") then
        NormSegments(comps[1..], rooted, acc + [comp])
      else if acc != [] then NormSegments(comps[1..], rooted, acc[..|acc| - 1])
      else NormSegments(comps[1..], rooted, acc)
  }

  /** The number of leading slashes `normpath` keeps: two exactly when the path starts with
      exactly two, otherwise one when it starts with a slash. */
  function InitialSlashes(path: string): nat {
    if !StartsWith(path, "/") then 0
    else if StartsWith(path, "//") && !StartsWith(path, "///") then 2
    else 1
  }

  function Slashes(n: nat): string {
    if n == 0 then "" else "/" + Slashes(n - 1)
  }

  /** normpath(path) */
  function NormPath(path: string): string {
    if path == "" then "."
    else
      var initial := InitialSlashes(path);
      var result := Slashes(initial) + Join(NormSegments(Split(path, '/'), initial > 0, []), "/");
      if result == "" then "." else result
  }

  /** Every segment `normpath` keeps is a segment; in a rooted path none is a dot segment. */
  lemma {:induction false} NormSegmentsShape(comps: seq<string>, rooted: bool, acc: seq<string>)
    requires forall i :: 0 <= i < |comps| ==> '/' !in comps[i]
    requires forall i :: 0 <= i < |acc| ==> Segment(acc[i]) && acc[i] != "."
    requires rooted ==> forall i :: 0 <= i < |acc| ==> Clean(acc[i])
    ensures forall i :: 0 <= i < |NormSegments(comps, rooted, acc)| ==>
              Segment(NormSegments(comps, rooted, acc)[i]) && NormSegments(comps, rooted, acc)[i] != "."
    ensures rooted ==> forall i :: 0 <= i < |NormSegments(comps, rooted, acc)| ==> Clean(NormSegments(comps, rooted, acc)[i])
    decreases |comps|
  {
    if comps != [] {
      var comp := comps[0];
      assert forall i :: 0 <= i < |comps[1..]| ==> comps[1..][i] == comps[i + 1];
      if comp == "" || comp == "." {
        assert NormSegments(comps, rooted, acc) == NormSegments(comps[1..], rooted, acc);
        NormSegmentsShape(comps[1..], rooted, acc);
      } else if comp != ".." || (!rooted && acc == []) || (acc != [] && acc[|acc| - 1] == "..") {
        assert '/' !in comps[0];
        assert rooted ==> comp != "..";
        var next := acc + [comp];
        assert forall i :: 0 <= i < |next| ==> next[i] == if i < |acc| then acc[i] else comp;
        NormSegmentsShape(comps[1..], rooted, next);
      } else if acc != [] {
        var next := acc[..|acc| - 1];
        assert forall i :: 0 <= i < |next| ==> next[i] == acc[i];
        NormSegmentsShape(comps[1..], rooted, next);
      } else {
        NormSegmentsShape(comps[1..], rooted, acc);
      }
    }
  }

  /** Where the first segment ends in joined segments. */
  lemma FirstSlash(parts: seq<string>)
    requires |parts| >= 1
    ensures |parts| == 1 ==> Join(parts, "/") == parts[0]
    ensures |parts| >= 2 ==> var j := Join(parts, "/");
              |parts[0]| < |j| && j[..|parts[0]|] == parts[0] && j[|parts[0]|] == '/'
  {
    if |parts| >= 2 {
      var j := Join(parts, "/");
      assert j == parts[0] + "/" + Join(parts[1..], "/");
      assert j[..|parts[0]|] == parts[0];
    }
  }

  lemma NoSlashNoPrefix(j: string, head: string)
    requires '/' !in j
    ensures !StartsWith(j, head + "/")
  {
    assert (head + "/")[|head|] == '/';
    assert forall n :: |head| < n <= |j| ==> j[..n][|head|] == j[|head|];
  }

  /** The first `/` of `j` is at `k`. */
  lemma FirstSlashAt(j: string, k: nat)
    requires k < |j| && j[k] == '/' && '/' !in j[..k]
    ensures IndexOf(j, '/') == Some(k)
  {
    assert j[k] in j;
    var r := IndexOf(j, '/').value;
    assert forall i :: 0 <= i < k ==> j[..k][i] == j[i];
    assert forall i :: 0 <= i < r ==> j[..r][i] == j[i];
  }

  /** A string that starts with `head/` and has a `/` right after a slash-free `first`. */
  lemma HeadFromPrefix(j: string, first: string, head: string)
    requires Segment(first) && Segment(head) && StartsWith(j, head + "/")
    requires |first| < |j| && j[..|first|] == first && j[|first|] == '/'
    ensures first == head
  {
    var h, p := |head|, |first|;
    assert j[..h] == head && j[h] == '/' by {
      assert j[..h + 1] == head + "/";
      assert (head + "/")[h] == '/';
      assert j[..h + 1][..h] == j[..h];
    }
    FirstSlashAt(j, p);
    FirstSlashAt(j, h);
  }

  /** Joined segments start with the first segment, up to the first `/`. */
  lemma JoinedHead(parts: seq<string>, head: string)
    requires |parts| >= 1 && forall i :: 0 <= i < |parts| ==> Segment(parts[i])
    requires Segment(head) && StartsWith(Join(parts, "/"), head + "/")
    ensures parts[0] == head && |parts| >= 2
  {
    FirstSlash(parts);
    NoSlashNoPrefix(parts[0], head);
    HeadFromPrefix(Join(parts, "/"), parts[0], head);
  }

  /** Joined segments do not start with a slash. */
  lemma JoinedNoSlash(parts: seq<string>)
    requires forall i :: 0 <= i < |parts| ==> Segment(parts[i])
    ensures !StartsWith(Join(parts, "/"), "/")
  {
    if |parts| >= 1 {
      JoinHead(parts, "/");
      HeadNotSlash(Join(parts, "/"), parts[0]);
    }
  }

  /** A text that starts with a segment does not start with a slash. */
  lemma HeadNotSlash(s: string, head: string)
    requires StartsWith(s, head) && Segment(head)
    ensures !StartsWith(s, "/")
  {
    assert s[..|head|][0] == s[0];
    assert head[0] in head;
  }

  /** The joined text starts with its first part. */
  lemma JoinHead(parts: seq<string>, sep: string)
    requires |parts| >= 1
    ensures StartsWith(Join(parts, sep), parts[0])
  {
    if |parts| > 1 {
      assert Join(parts, sep) == parts[0] + (sep + Join(parts[1..], sep));
    }
  }

  /** A normalised path under a top-level directory `dir/` is a single slash followed by clean
      segments, the first of which is `dir`: no `.` or `..` segment remains that could lead
      out of it. */
  lemma NormalisedUnder(path: string, dir: string)
    requires Segment(dir)
    requires StartsWith(NormPath(path), "/" + dir + "/")
    ensures var segs := NormSegments(Split(path, '/'), true, []);
            NormPath(path) == "/" + Join(segs, "/") &&
            |segs| >= 2 && segs[0] == dir &&
            forall i :: 0 <= i < |segs| ==> Clean(segs[i])
  {
    var segs := NormSegments(Split(path, '/'), true, []);
    RootedOnce(path, dir);
    NormSegmentsShape(Split(path, '/'), true, []);
    DropSlash(Join(segs, "/"), dir + "/");
    JoinedHead(segs, dir);
  }

  lemma DropSlash(s: string, prefix: string)
    requires StartsWith("/" + s, "/" + prefix)
    ensures StartsWith(s, prefix)
  {
    assert ("/" + s)[1..] == s;
    assert ("/" + prefix)[1..] == prefix;
  }

  /** A path whose normal form starts with `/dir/` has exactly one leading slash. */
  lemma RootedOnce(path: string, dir: string)
    requires Segment(dir)
    requires StartsWith(NormPath(path), "/" + dir + "/")
    ensures InitialSlashes(path) == 1
    ensures NormPath(path) == "/" + Join(NormSegments(Split(path, '/'), true, []), "/")
  {
    var prefix := "/" + dir + "/";
    var initial := InitialSlashes(path);
    var segs := NormSegments(Split(path, '/'), initial > 0, []);
    NormSegmentsShape(Split(path, '/'), initial > 0, []);
    JoinedNoSlash(segs);
    assert prefix[0] == '/' && prefix[1] == dir[0] != '/';
    assert NormPath(path)[0] == '/' && NormPath(path)[1] != '/';
    assert Slashes(2) == "//" && Slashes(1) == "/";
  }
}
