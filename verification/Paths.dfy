/** Cluster keys and the URL paths that carry them from one hub to another.

    A key is printed in two ways: as the identifier of a session list
    (`KeyString`) and as the prefix of the peer route (`RoutePrefix`).  The
    entry hub prints a key and a subpath into one URL path (`PeerPath`), and the
    hub that is called parses that path back (`Route`). */
module Paths {

  datatype Key = Key(ns: string, name: string)

  /** A namespace or a name: not empty and without a slash. */
  predicate Segment(s: string) {
    s != "" && '/' !in s
  }

  predicate ValidKey(k: Key) {
    Segment(k.ns) && Segment(k.name)
  }

  /** `NamespacedName.String()`. */
  function KeyString(k: Key): string {
    k.ns + "/" + k.name
  }

  /** `strings.TrimPrefix`. */
  function TrimPrefix(s: string, prefix: string): (r: string)
    ensures s == if prefix <= s then prefix + r else r
  {
    if prefix <= s then s[|prefix|..] else s
  }

  predicate LeadingSlash(s: string) {
    s != "" && s[0] == '/'
  }

  predicate TrailingSlash(s: string) {
    s != "" && s[|s| - 1] == '/'
  }

  /** How the single-host director joins the path of its target with the path of
      a request: with exactly one slash between the two. */
  function SingleJoin(a: string, b: string): string {
    if TrailingSlash(a) && LeadingSlash(b) then a + b[1..]
    else if !TrailingSlash(a) && !LeadingSlash(b) then a + "/" + b
    else a + b
  }

  function RoutePrefix(k: Key): string {
    "/proxy/" + k.ns + "/" + k.name
  }

  /** The path a peer is called at, for a request whose path is `sub`. */
  function PeerPath(k: Key, sub: string): string {
    SingleJoin(RoutePrefix(k), sub)
  }

  /** A subpath as a peer sees it. */
  function Norm(sub: string): string {
    if LeadingSlash(sub) then sub else "/" + sub
  }

  /** The length of the first segment of `s`. */
  function FirstSlash(s: string): (i: nat)
    ensures i <= |s|
    ensures '/' !in s[..i]
    ensures i < |s| ==> s[i] == '/'
  {
    if s == "" || s[0] == '/' then 0
    else
      var i := 1 + FirstSlash(s[1..]);
      assert s[..i] == [s[0]] + s[1..][..i - 1];
      i
  }

  predicate Dots(s: string) {
    s == "." || s == ".."
  }

  /** What follows a slash in a path that the router leaves alone: no empty
      segment except at the very end, and no segment that is a dot or two. */
  predicate CleanTail(s: string)
    decreases |s|
  {
    var i := FirstSlash(s);
    && !Dots(s[..i])
    && (i < |s| ==> i != 0 && CleanTail(s[i + 1..]))
  }

  /** The paths that the router serves; every other path it redirects. */
  predicate Clean(path: string) {
    LeadingSlash(path) && CleanTail(path[1..])
  }

  datatype ParsedKey = NoKey | Parsed(key: Key)

  /** The two variables of the peer route, read from what follows `/proxy/`:
      each takes one whole non-empty segment. */
  function ParseKey(rest: string): ParsedKey {
    var i := FirstSlash(rest);
    if i == 0 || i == |rest| then NoKey
    else
      var tail := rest[i + 1..];
      var j := FirstSlash(tail);
      if j == 0 then NoKey else Parsed(Key(rest[..i], tail[..j]))
  }

  datatype Routed = Redirected | Unmatched | Matched(key: Key, subpath: string)

  /** The peer server: the prefix route `/proxy/{namespace}/{name}`. */
  function Route(path: string): Routed {
    if !Clean(path) then Redirected
    else if !("/proxy/" <= path) then Unmatched
    else
      match ParseKey(path[|"/proxy/"|..])
      case NoKey => Unmatched
      case Parsed(key) => Matched(key, TrimPrefix(path, RoutePrefix(key)))
  }

  /** The requests whose peer path the router serves. */
  predicate Servable(k: Key, sub: string) {
    !Dots(k.ns) && !Dots(k.name) && CleanTail(Norm(sub)[1..])
  }

  // ------------------------------------------------------------------ keys

  /** A path as text: two slashes in a row. */
  ghost predicate DoubleSlash(path: string) {
    exists i :: 0 <= i < |path| - 1 && path[i] == '/' && path[i + 1] == '/'
  }

  /** `path[i..j]` stands between two slashes, or between one and the end. */
  predicate WholeSegment(path: string, i: nat, j: nat) {
    && 0 < i <= j <= |path| && path[i - 1] == '/' && '/' !in path[i..j]
    && (j == |path| || path[j] == '/')
  }

  ghost predicate DotSegment(path: string) {
    exists i: nat, j: nat :: WholeSegment(path, i, j) && (path[i..j] == "." || path[i..j] == "..")
  }

  lemma {:induction false} FirstSlashUnique(s: string, i: nat)
    requires i <= |s| && '/' !in s[..i]
    requires i < |s| ==> s[i] == '/'
    ensures FirstSlash(s) == i
  {
    if i > 0 {
      assert s[0] == s[..i][0];
      assert s[..i][1..] == s[1..][..i - 1];
      FirstSlashUnique(s[1..], i - 1);
    }
  }

  /** The slash-free segment in front of the first slash can be read off. */
  lemma {:induction false} SplitAtSlash(seg: string, rest: string)
    requires '/' !in seg
    ensures FirstSlash(seg + "/" + rest) == |seg|
    ensures (seg + "/" + rest)[..|seg|] == seg
    ensures (seg + "/" + rest)[|seg| + 1..] == rest
  {
    var s := seg + "/" + rest;
    assert s[..|seg|] == seg;
    FirstSlashUnique(s, |seg|);
  }

  /** Two keys never share a session list: the identifier is read back at its first
      slash, the namespace before it and the name behind. */
  lemma {:induction false} KeyStringInjective(a: Key, b: Key)
    requires ValidKey(a) && ValidKey(b)
    ensures KeyString(a) == KeyString(b) <==> a == b
    ensures var id := KeyString(a);
      FirstSlash(id) < |id| && Key(id[..FirstSlash(id)], id[FirstSlash(id) + 1..]) == a
  {
    SplitAtSlash(a.ns, a.name);
    SplitAtSlash(b.ns, b.name);
  }

  lemma {:induction false} SlashFree(s: string, a: nat, b: nat)
    requires a <= b <= |s| && '/' !in s[a..b]
    ensures forall i :: a <= i < b ==> s[i] != '/'
  {
    forall i | a <= i < b
      ensures s[i] != '/'
    {
      assert s[i] == s[a..b][i - a];
    }
  }

  /** A path that goes on behind its first segment, seen from there. */
  lemma {:induction false} DoubleSlashBehind(path: string, k: nat)
    requires LeadingSlash(path) && 0 < k < |path| && path[k] == '/' && '/' !in path[1..k]
    ensures DoubleSlash(path) <==> k == 1 || DoubleSlash(path[k..])
  {
    var rest := path[k..];
    SlashFree(path, 1, k);
    if i :| 0 <= i < |path| - 1 && path[i] == '/' && path[i + 1] == '/' {
      if i >= k { assert rest[i - k] == '/' && rest[i - k + 1] == '/'; }
    }
    if i :| 0 <= i < |rest| - 1 && rest[i] == '/' && rest[i + 1] == '/' {
      assert path[i + k] == '/' && path[i + k + 1] == '/';
    }
    if k == 1 { assert path[0] == '/' && path[1] == '/'; }
  }

  lemma {:induction false} DotSegmentBehind(path: string, k: nat)
    requires LeadingSlash(path) && 0 < k < |path| && path[k] == '/' && '/' !in path[1..k]
    ensures DotSegment(path) <==> Dots(path[1..k]) || DotSegment(path[k..])
  {
    var rest := path[k..];
    if i: nat, j: nat :| WholeSegment(path, i, j) && (path[i..j] == "." || path[i..j] == "..") {
      SegmentFrom(path, k, i, j);
    }
    if i: nat, j: nat :| WholeSegment(rest, i, j) && (rest[i..j] == "." || rest[i..j] == "..") {
      assert path[i + k..j + k] == rest[i..j];
      assert WholeSegment(path, i + k, j + k);
    }
    if Dots(path[1..k]) { assert WholeSegment(path, 1, k); }
  }

  /** A whole segment is the first one, or stands in what follows it. */
  lemma {:induction false} SegmentFrom(path: string, k: nat, i: nat, j: nat)
    requires LeadingSlash(path) && 0 < k < |path| && path[k] == '/' && '/' !in path[1..k]
    requires WholeSegment(path, i, j)
    ensures if i <= k then i == 1 && j == k else WholeSegment(path[k..], i - k, j - k)
    ensures i > k ==> path[k..][i - k..j - k] == path[i..j]
  {
    SlashFree(path, 1, k);
    SlashFree(path, i, j);
    if i > k { assert path[k..][i - k..j - k] == path[i..j]; }
  }

  /** Exactly the paths that begin with a slash, hold no two slashes in a row and
      have neither `.` nor `..` for a whole segment are not redirected. */
  lemma {:induction false} RedirectedExactly(path: string)
    ensures Route(path).Redirected? <==> !LeadingSlash(path) || DoubleSlash(path) || DotSegment(path)
  {
    if LeadingSlash(path) { CleanExactly(path); }
  }

  lemma {:induction false} CleanExactly(path: string)
    requires LeadingSlash(path)
    ensures CleanTail(path[1..]) <==> !DoubleSlash(path) && !DotSegment(path)
    decreases |path|
  {
    var k := 1 + FirstSlash(path[1..]);
    assert path[1..][..k - 1] == path[1..k];
    if k < |path| {
      assert path[1..][k..] == path[k..][1..];
      DoubleSlashBehind(path, k);
      DotSegmentBehind(path, k);
      CleanExactly(path[k..]);
    } else {
      assert path[1..k] == path[1..];
      SlashFree(path, 1, k);
      if Dots(path[1..k]) { assert WholeSegment(path, 1, k); }
    }
  }

  // -------------------------------------------------------------- peer path

  /** `s` without a slash at its end. */
  function CutEnd(s: string): string {
    if TrailingSlash(s) then s[..|s| - 1] else s
  }

  function CutStart(s: string): string {
    if LeadingSlash(s) then s[1..] else s
  }

  /** The join puts exactly one slash between its parts, and keeps all else. */
  lemma {:induction false} OneSlashBetween(a: string, b: string)
    ensures SingleJoin(a, b) == CutEnd(a) + "/" + CutStart(b)
  {
    if LeadingSlash(b) { assert b == "/" + b[1..]; }
    if TrailingSlash(a) { assert a == a[..|a| - 1] + "/"; }
  }

  /** Whatever the subpath, joining and then trimming normalises it. */
  lemma {:induction false} JoinThenTrim(k: Key, sub: string)
    requires ValidKey(k)
    ensures PeerPath(k, sub) == RoutePrefix(k) + Norm(sub)
    ensures TrimPrefix(PeerPath(k, sub), RoutePrefix(k)) == Norm(sub)
  {
    var p := RoutePrefix(k);
    assert p[|p| - 1] == k.name[|k.name| - 1];
    assert !TrailingSlash(p) by {
      assert k.name[|k.name| - 1] in k.name;
    }
    assert PeerPath(k, sub) == p + Norm(sub);
    assert p <= p + Norm(sub);
  }

  /** The text of a peer path. */
  lemma {:induction false} PeerPathText(k: Key, sub: string)
    requires ValidKey(k)
    ensures PeerPath(k, sub) == "/proxy/" + k.ns + "/" + k.name + Norm(sub)
  {
    JoinThenTrim(k, sub);
  }

  /** A request's path when the walk reaches its hop number `n`: every hop prints
      it into a URL and every 502 answer trims it again. */
  function PathAtHop(k: Key, sub: string, n: nat): string {
    if n == 0 then sub
    else TrimPrefix(PeerPath(k, PathAtHop(k, sub, n - 1)), RoutePrefix(k))
  }

  /** However many peers are called, and whatever the subpath looks like, even
      like a peer route, each of them is called at the same path. */
  lemma {:induction false} EveryHopSamePath(k: Key, sub: string, n: nat)
    requires ValidKey(k)
    ensures PathAtHop(k, sub, n) == if n == 0 then sub else Norm(sub)
    ensures PeerPath(k, PathAtHop(k, sub, n)) == RoutePrefix(k) + Norm(sub)
  {
    if n == 0 {
      JoinThenTrim(k, sub);
    } else {
      EveryHopSamePath(k, sub, n - 1);
      JoinThenTrim(k, PathAtHop(k, sub, n - 1));
      JoinThenTrim(k, PathAtHop(k, sub, n));
    }
  }

  lemma {:induction false} DropPrefix(p: string, rest: string)
    ensures p <= p + rest && (p + rest)[|p|..] == rest
  {
    assert (p + rest)[..|p|] == p;
  }

  lemma {:induction false} Reattach(p: string, s: string)
    requires p <= s
    ensures s == p + s[|p|..]
  {
    assert s[..|p|] == p;
  }

  lemma {:induction false} Regroup(a: string, b: string, c: string, d: string, e: string)
    ensures a + b + c + d + e == a + (b + (c + (d + e)))
  {
    assert a + b + c + d + e == a + b + c + (d + e);
    assert a + b + c + (d + e) == a + b + (c + (d + e));
  }

  lemma {:induction false} Assoc(a: string, b: string, c: string)
    ensures a + b + c == a + (b + c)
  {
  }

  /** A peer path is the route's fixed part followed by what the key is read
      from. */
  lemma {:induction false} PeerPathRest(k: Key, sub: string)
    requires ValidKey(k)
    ensures PeerPath(k, sub) == "/proxy/" + (k.ns + "/" + (k.name + "/" + Norm(sub)[1..]))
  {
    JoinThenTrim(k, sub);
    var n := Norm(sub);
    Regroup("/proxy/", k.ns, "/", k.name, n);
    Assoc(k.ns, "/", k.name + n);
    Assoc(k.name, "/", n[1..]);
    assert n == "/" + n[1..];
  }

  lemma {:induction false} CleanStep(seg: string, rest: string)
    requires Segment(seg)
    ensures CleanTail(seg + "/" + rest) <==> !Dots(seg) && CleanTail(rest)
  {
    SplitAtSlash(seg, rest);
  }

  lemma {:induction false} CleanProxy(rest: string)
    ensures Clean("/proxy/" + rest) <==> CleanTail(rest)
  {
    var path := "/proxy/" + rest;
    assert LeadingSlash(path) && path[1..] == "proxy" + "/" + rest;
    CleanStep("proxy", rest);
  }

  /** When the router leaves a peer path alone. */
  lemma {:induction false} PeerPathClean(k: Key, sub: string)
    requires ValidKey(k)
    ensures Clean(PeerPath(k, sub)) <==> Servable(k, sub)
  {
    PeerPathRest(k, sub);
    var t := Norm(sub)[1..];
    CleanStep(k.name, t);
    CleanStep(k.ns, k.name + "/" + t);
    CleanProxy(k.ns + "/" + (k.name + "/" + t));
  }

  /** Reading the key back from what follows `/proxy/`. */
  lemma {:induction false} ParseKeyBack(k: Key, t: string)
    requires ValidKey(k)
    ensures ParseKey(k.ns + "/" + (k.name + "/" + t)) == Parsed(k)
  {
    SplitAtSlash(k.ns, k.name + "/" + t);
    SplitAtSlash(k.name, t);
  }

  /** The round trip: the hub that is called reads back the key and the
      normalised subpath, unless the router redirects the path. */
  lemma {:induction false} RouteRoundTrip(k: Key, sub: string)
    requires ValidKey(k)
    ensures Route(PeerPath(k, sub)) == if Servable(k, sub) then Matched(k, Norm(sub)) else Redirected
  {
    PeerPathClean(k, sub);
    PeerPathRest(k, sub);
    DropPrefix("/proxy/", k.ns + "/" + (k.name + "/" + Norm(sub)[1..]));
    ParseKeyBack(k, Norm(sub)[1..]);
    JoinThenTrim(k, sub);
  }

  /** What is left of a string once a key has been read from it. */
  lemma {:induction false} ParseKeyTail(rest: string) returns (tail: string)
    requires ParseKey(rest).Parsed?
    ensures ValidKey(ParseKey(rest).key)
    ensures rest == ParseKey(rest).key.ns + ("/" + (ParseKey(rest).key.name + tail))
    ensures tail == "" || LeadingSlash(tail)
  {
    var i := FirstSlash(rest);
    var after := rest[i + 1..];
    var j := FirstSlash(after);
    tail := after[j..];
    assert ParseKey(rest).key == Key(rest[..i], after[..j]);
    assert after == after[..j] + tail;
    assert rest[i..] == "/" + after;
    assert rest == rest[..i] + rest[i..];
  }

  /** What the route reads is a key, whatever path was asked for, and nothing of
      the path is lost. */
  lemma {:induction false} RouteGivesKey(path: string)
    requires Route(path).Matched?
    ensures ValidKey(Route(path).key)
    ensures RoutePrefix(Route(path).key) + Route(path).subpath == path
    ensures Route(path).subpath == "" || LeadingSlash(Route(path).subpath)
  {
    var rest := path[|"/proxy/"|..];
    var tail := ParseKeyTail(rest);
    var key := Route(path).key;
    Regroup("/proxy/", key.ns, "/", key.name, tail);
    Reattach("/proxy/", path);
    DropPrefix(RoutePrefix(key), tail);
  }

  lemma {:induction false} ParseWhole(k: Key, tail: string)
    requires ValidKey(k) && (tail == "" || LeadingSlash(tail))
    ensures ParseKey(k.ns + "/" + (k.name + tail)) == Parsed(k)
  {
    var after := k.name + tail;
    SplitAtSlash(k.ns, after);
    assert after[..|k.name|] == k.name;
    FirstSlashUnique(after, |k.name|);
  }

  /** The route takes exactly the paths that are not redirected and are the prefix of
      a key with nothing or a slash behind it, and reads that key and the rest. */
  lemma {:induction false} RouteExactly(path: string, k: Key, sub: string)
    ensures Route(path) == Matched(k, sub) <==>
      && !Route(path).Redirected? && ValidKey(k)
      && path == "/proxy/" + k.ns + "/" + k.name + sub && (sub == "" || LeadingSlash(sub))
  {
    if Route(path) == Matched(k, sub) {
      RouteGivesKey(path);
    }
    if ValidKey(k) && path == "/proxy/" + k.ns + "/" + k.name + sub && (sub == "" || LeadingSlash(sub)) {
      Regroup("/proxy/", k.ns, "/", k.name, sub);
      Assoc(k.ns, "/", k.name + sub);
      DropPrefix("/proxy/", k.ns + "/" + (k.name + sub));
      ParseWhole(k, sub);
      DropPrefix(RoutePrefix(k), sub);
    }
  }

  /** No two keys share a peer route: equal URL paths carry equal keys and equal
      subpaths, also where the router would redirect them. */
  lemma {:induction false} PeerPathInjective(a: Key, sa: string, b: Key, sb: string)
    requires ValidKey(a) && ValidKey(b)
    ensures PeerPath(a, sa) == PeerPath(b, sb) <==> a == b && Norm(sa) == Norm(sb)
  {
    JoinThenTrim(a, sa);
    JoinThenTrim(b, sb);
    PeerPathRest(a, sa);
    PeerPathRest(b, sb);
    DropPrefix("/proxy/", a.ns + "/" + (a.name + "/" + Norm(sa)[1..]));
    DropPrefix("/proxy/", b.ns + "/" + (b.name + "/" + Norm(sb)[1..]));
    ParseKeyBack(a, Norm(sa)[1..]);
    ParseKeyBack(b, Norm(sb)[1..]);
    DropPrefix(RoutePrefix(a), Norm(sa));
    DropPrefix(RoutePrefix(b), Norm(sb));
  }

  /** The peer route's fixed part tells keys apart. */
  lemma {:induction false} RoutePrefixInjective(a: Key, b: Key)
    requires ValidKey(a) && ValidKey(b)
    ensures RoutePrefix(a) == RoutePrefix(b) <==> a == b
  {
    JoinThenTrim(a, "/");
    JoinThenTrim(b, "/");
    PeerPathInjective(a, "/", b, "/");
  }
}
