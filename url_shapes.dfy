/**
 * String helpers behind the download-URL derivation: trimming trailing slashes
 * from a repository URL, cutting a path into its '/'-separated segments, and
 * the anchored URL patterns the deriver checks a repository URL against.
 *
 * Every pattern has the form `^<scheme prefix>[^/]+?/[^/]+?...$`: a fixed
 * prefix followed by a fixed number of non-empty segments that contain no '/',
 * joined by '/'. The executable predicate `MatchesShape` checks this by
 * splitting the rest of the URL; the ghost predicates `IsOwnerName` and
 * `IsHostOwnerName` say the same thing existentially, and the lemmas at the
 * end of the module prove the two readings equivalent.
 */
module UrlShapes {

  /** The URL with every trailing '/' removed (PHP `rtrim($url, '/')`). */
  function TrimTrailingSlashes(s: string): (r: string)
    ensures r <= s
    ensures r == [] || r[|r| - 1] != '/'
    ensures forall i :: |r| <= i < |s| ==> s[i] == '/'
    decreases |s|
  {
    if |s| > 0 && s[|s| - 1] == '/' then TrimTrailingSlashes(s[..|s| - 1]) else s
  }

  predicate AllSlashes(t: string) {
    forall i :: 0 <= i < |t| ==> t[i] == '/'
  }

  /** Appending any run of slashes does not change the trimmed URL. */
  lemma {:induction false} TrimIgnoresAppendedSlashes(s: string, t: string)
    requires AllSlashes(t)
    ensures TrimTrailingSlashes(s + t) == TrimTrailingSlashes(s)
    decreases |t|
  {
    if |t| > 0 {
      var u := t[..|t| - 1];
      assert (s + t)[..|s + t| - 1] == s + u;
      TrimIgnoresAppendedSlashes(s, u);
    } else {
      assert s + t == s;
    }
  }

  /** Index of the first '/' in `s`. */
  function FirstSlash(s: string): (k: nat)
    requires '/' in s
    ensures k < |s| && s[k] == '/' && '/' !in s[..k]
  {
    if s[0] == '/' then 0
    else
      var k := FirstSlash(s[1..]);
      assert s[..k + 1] == [s[0]] + s[1..][..k];
      k + 1
  }

  /** Segments joined by '/': the inverse of `Split` on slash-free segments. */
  function Join(segs: seq<string>): string
    decreases |segs|
  {
    if |segs| == 0 then ""
    else if |segs| == 1 then segs[0]
    else segs[0] + "/" + Join(segs[1..])
  }

  /**
   * The '/'-separated segments of `s`, the reading under which a pattern's
   * `[^/]+?` pieces are checked one segment at a time.
   */
  function Split(s: string): (segs: seq<string>)
    ensures |segs| >= 1
    ensures forall i :: 0 <= i < |segs| ==> '/' !in segs[i]
    decreases |s|
  {
    if '/' !in s then [s]
    else
      var k := FirstSlash(s);
      [s[..k]] + Split(s[k + 1..])
  }

  /** Joining the segments gives back the string that was split. */
  lemma {:induction false} JoinSplit(s: string)
    ensures Join(Split(s)) == s
    decreases |s|
  {
    if '/' in s {
      var k := FirstSlash(s);
      JoinSplit(s[k + 1..]);
      var segs := Split(s);
      assert segs[1..] == Split(s[k + 1..]);
      assert s == s[..k] + "/" + s[k + 1..];
    }
  }

  /** A slash-free segment that the character class `[^/]+?` accepts. */
  ghost predicate Segment(a: string) {
    a != "" && '/' !in a
  }

  lemma FirstSlashAt(s: string, k: nat)
    requires k < |s| && s[k] == '/' && '/' !in s[..k]
    ensures FirstSlash(s) == k
  {
  }

  /** Splitting undoes joining slash-free segments. */
  lemma {:induction false} SplitJoin(segs: seq<string>)
    requires |segs| >= 1
    requires forall i :: 0 <= i < |segs| ==> '/' !in segs[i]
    ensures Split(Join(segs)) == segs
    decreases |segs|
  {
    if |segs| > 1 {
      var s := Join(segs);
      var k := |segs[0]|;
      assert s == segs[0] + "/" + Join(segs[1..]);
      assert s[..k] == segs[0];
      FirstSlashAt(s, k);
      assert s[k + 1..] == Join(segs[1..]);
      SplitJoin(segs[1..]);
      assert segs == [segs[0]] + segs[1..];
    }
  }

  /** `s` is exactly `n` non-empty segments joined by '/'. */
  predicate Segments(s: string, n: nat) {
    var segs := Split(s);
    |segs| == n && forall i :: 0 <= i < n ==> segs[i] != ""
  }

  /** The anchored pattern `^<prefix>` followed by `n` segments `[^/]+?` joined by '/', then `$`. */
  predicate MatchesShape(url: string, prefix: string, n: nat) {
    prefix <= url && Segments(url[|prefix|..], n)
  }

  /** `url` is `prefix<owner>/<name>` with two non-empty slash-free segments. */
  ghost predicate IsOwnerName(url: string, prefix: string) {
    exists a, b :: Segment(a) && Segment(b) && url == prefix + a + "/" + b
  }

  /** `url` is `scheme<host>/<owner>/<name>` with three non-empty slash-free segments. */
  ghost predicate IsHostOwnerName(url: string, scheme: string) {
    exists h, a, b :: Segment(h) && Segment(a) && Segment(b) && url == scheme + h + "/" + a + "/" + b
  }

  lemma JoinTwo(a: string, b: string)
    ensures Join([a, b]) == a + "/" + b
  {
    assert [a, b][1..] == [b];
  }

  lemma JoinThree(h: string, a: string, b: string)
    ensures Join([h, a, b]) == h + "/" + a + "/" + b
  {
    assert [h, a, b][1..] == [a, b];
    JoinTwo(a, b);
  }

  lemma SegmentsTwo(rest: string)
    requires Segments(rest, 2)
    ensures var segs := Split(rest);
      Segment(segs[0]) && Segment(segs[1]) && rest == segs[0] + "/" + segs[1]
  {
    var segs := Split(rest);
    JoinSplit(rest);
    assert segs == [segs[0], segs[1]];
    JoinTwo(segs[0], segs[1]);
  }

  lemma TwoSegmentsSound(url: string, prefix: string)
    requires MatchesShape(url, prefix, 2)
    ensures IsOwnerName(url, prefix)
  {
    var rest := url[|prefix|..];
    SegmentsTwo(rest);
    var a, b := Split(rest)[0], Split(rest)[1];
    assert url == prefix + rest;
    assert url == prefix + a + "/" + b;
  }

  lemma TwoSegmentsComplete(url: string, prefix: string, a: string, b: string)
    requires Segment(a) && Segment(b) && url == prefix + a + "/" + b
    ensures MatchesShape(url, prefix, 2)
  {
    JoinTwo(a, b);
    assert url == prefix + Join([a, b]);
    assert url[|prefix|..] == Join([a, b]);
    SplitJoin([a, b]);
  }

  lemma TwoSegmentsIff(url: string, prefix: string)
    ensures MatchesShape(url, prefix, 2) <==> IsOwnerName(url, prefix)
  {
    if MatchesShape(url, prefix, 2) {
      TwoSegmentsSound(url, prefix);
    }
    if IsOwnerName(url, prefix) {
      var a, b :| Segment(a) && Segment(b) && url == prefix + a + "/" + b;
      TwoSegmentsComplete(url, prefix, a, b);
    }
  }

  lemma SegmentsThree(rest: string)
    requires Segments(rest, 3)
    ensures var segs := Split(rest);
      Segment(segs[0]) && Segment(segs[1]) && Segment(segs[2])
      && rest == segs[0] + "/" + segs[1] + "/" + segs[2]
  {
    var segs := Split(rest);
    JoinSplit(rest);
    assert segs == [segs[0], segs[1], segs[2]];
    JoinThree(segs[0], segs[1], segs[2]);
  }

  lemma ThreeSegmentsSound(url: string, scheme: string)
    requires MatchesShape(url, scheme, 3)
    ensures IsHostOwnerName(url, scheme)
  {
    var rest := url[|scheme|..];
    SegmentsThree(rest);
    var h, a, b := Split(rest)[0], Split(rest)[1], Split(rest)[2];
    assert url == scheme + rest;
    assert url == scheme + h + "/" + a + "/" + b;
  }

  lemma ThreeSegmentsComplete(url: string, scheme: string, h: string, a: string, b: string)
    requires Segment(h) && Segment(a) && Segment(b) && url == scheme + h + "/" + a + "/" + b
    ensures MatchesShape(url, scheme, 3)
  {
    JoinThree(h, a, b);
    assert url == scheme + Join([h, a, b]);
    assert url[|scheme|..] == Join([h, a, b]);
    SplitJoin([h, a, b]);
  }

  lemma ThreeSegmentsIff(url: string, scheme: string)
    ensures MatchesShape(url, scheme, 3) <==> IsHostOwnerName(url, scheme)
  {
    if MatchesShape(url, scheme, 3) {
      ThreeSegmentsSound(url, scheme);
    }
    if IsHostOwnerName(url, scheme) {
      var h, a, b :| Segment(h) && Segment(a) && Segment(b) && url == scheme + h + "/" + a + "/" + b;
      ThreeSegmentsComplete(url, scheme, h, a, b);
    }
  }

  /** A three-segment path determines its segments. */
  lemma ThreeSegmentsUnique(h: string, a: string, b: string, h': string, a': string, b': string)
    requires '/' !in h && '/' !in a && '/' !in b && '/' !in h' && '/' !in a' && '/' !in b'
    requires h + "/" + a + "/" + b == h' + "/" + a' + "/" + b'
    ensures h == h' && a == a' && b == b'
  {
    JoinThree(h, a, b);
    JoinThree(h', a', b');
    SplitJoin([h, a, b]);
    SplitJoin([h', a', b']);
    assert [h, a, b] == [h', a', b'];
  }

  lemma StripPrefix(p: string, y: string, z: string)
    requires p + y == p + z
    ensures y == z
  {
    assert y == (p + y)[|p|..];
    assert z == (p + z)[|p|..];
  }

  /**
   * For a URL of the general `https://<host>/<owner>/<name>` shape, the
   * `https://gitlab.com/<owner>/<name>` pattern holds exactly when the host is
   * `gitlab.com`.
   */
  lemma HostIsGitLabCom(h: string, a: string, b: string)
    requires Segment(h) && Segment(a) && Segment(b)
    ensures var url := "https://" + h + "/" + a + "/" + b;
            IsOwnerName(url, "https://gitlab.com/") <==> h == "gitlab.com"
  {
    var url := "https://" + h + "/" + a + "/" + b;
    var com := "https://gitlab.com/";
    assert com == "https://" + "gitlab.com" + "/";
    if h == "gitlab.com" {
      assert url == com + a + "/" + b;
      assert IsOwnerName(url, com);
    }
    if IsOwnerName(url, com) {
      var a', b' :| Segment(a') && Segment(b') && url == com + a' + "/" + b';
      assert url == "https://" + (h + "/" + a + "/" + b);
      assert url == "https://" + ("gitlab.com" + "/" + a' + "/" + b');
      StripPrefix("https://", h + "/" + a + "/" + b, "gitlab.com" + "/" + a' + "/" + b');
      ThreeSegmentsUnique(h, a, b, "gitlab.com", a', b');
    }
  }
}
