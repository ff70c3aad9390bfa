/**
 * `validate_feed_url` (manage_feeds.py): trims the URL, checks its shape,
 * rejects URLs that mention a local or private address or a non-web scheme
 * anywhere, then normalises Substack and blog-host URLs.
 */
module FeedUrl {
  import opened Text

  datatype UrlVerdict = Accepted(url: string) | BadFormat | Blocked

  /**
   * The blocklist, case-insensitive and matched anywhere in the URL; the
   * pattern for 172.16.0.0/12 is spelled out as its sixteen literal prefixes.
   */
  const BlockedPatterns: seq<string> := [
    "localhost", "127.0.0.1", "192.168.", "10.",
    "172.16.", "172.17.", "172.18.", "172.19.", "172.20.", "172.21.", "172.22.", "172.23.",
    "172.24.", "172.25.", "172.26.", "172.27.", "172.28.", "172.29.", "172.30.", "172.31.",
    "0.0.0.0", "file://", "ftp://"]

  /** Hosts whose URLs are forced onto https. */
  const BlogHosts: seq<string> := ["substack.com", "medium.com", "ghost.io"]

  predicate IsBlocked(url: string)
  {
    exists p :: p in BlockedPatterns && Contains(Lower(url), p)
  }

  predicate OnBlogHost(url: string)
  {
    exists d :: d in BlogHosts && Contains(Lower(url), d)
  }

  /** Substack URLs not already ending in "/feed" lose their trailing slashes and gain "/feed". */
  function WithFeedSuffix(url: string): string
  {
    if Contains(Lower(url), "substack.com") && !EndsWith(url, "/feed")
    then RStripChar(url, '/') + "/feed"
    else url
  }

  /** A leading lower-case "http://" on a blog host becomes "https://". */
  function WithHttps(url: string): string
  {
    if OnBlogHost(url) && StartsWith(url, "http://") then "https://" + url[7..] else url
  }

  /**
   * The whole check. `shape` stands for the URL regular expression (scheme,
   * host name, dotted quad or localhost, optional port and path), which is
   * not modelled here.
   */
  function Validate(url: string, shape: string -> bool): (r: UrlVerdict)
    ensures r.BadFormat? <==> !shape(Strip(url))
    ensures r.Blocked? <==> shape(Strip(url)) && IsBlocked(Strip(url))
    ensures r.Accepted? ==> !IsBlocked(r.url) && NoEdgeSpace(r.url)
    ensures r.Accepted? ==> r.url == WithHttps(WithFeedSuffix(Strip(url)))
    ensures r.Accepted? && Contains(Lower(Strip(url)), "substack.com") ==> EndsWith(r.url, "/feed")
    ensures r.Accepted? && OnBlogHost(Strip(url)) ==> !StartsWith(r.url, "http://")
    ensures r.Accepted? && !OnBlogHost(Strip(url)) ==> r.url == Strip(url)
  {
    var u := Strip(url);
    if !shape(u) then BadFormat
    else if IsBlocked(u) then Blocked
    else
      SuffixStepUnblocked(u);
      HttpsStepUnblocked(WithFeedSuffix(u));
      NormalisedEdges(u);
      NormalForm(u);
      Accepted(WithHttps(WithFeedSuffix(u)))
  }

  /**
   * What normalisation does: a Substack URL ends in "/feed", a URL on a blog
   * host no longer starts with "http://", and any other URL is left alone.
   */
  lemma NormalForm(u: string)
    ensures var r := WithHttps(WithFeedSuffix(u));
      && (Contains(Lower(u), "substack.com") ==> EndsWith(r, "/feed"))
      && (OnBlogHost(u) ==> !StartsWith(r, "http://"))
      && (!OnBlogHost(u) ==> r == u)
  {
    var v := WithFeedSuffix(u);
    var r := WithHttps(v);
    if Contains(Lower(u), "substack.com") {
      if !EndsWith(u, "/feed") {
        assert v[|v| - 5..] == "/feed";
      }
      HttpsKeepsFeedEnding(v);
      if v != u {
        SubstackHasNoSlash();
        SuffixKeepsHost(u, "substack.com");
      }
      assert "substack.com" in BlogHosts;
    }
    if r != v {
      assert r[4] == 's' && "http://"[4] == ':';
    }
  }

  /** Dropping trailing slashes and appending "/feed" keeps a slash-free host name in the URL. */
  lemma SuffixKeepsHost(u: string, d: string)
    requires |d| > 0 && '/' !in d
    requires Contains(Lower(u), d)
    ensures Contains(Lower(RStripChar(u, '/') + "/feed"), d)
  {
    var a := RStripChar(u, '/');
    var t := u[|a|..];
    StrippedSlashes(u);
    LowerAppend(a, t);
    var la, lt := Lower(a), Lower(t);
    KeptBeforeSlashes(la, lt, d);
    ContainsInPart(la, "/feed", d);
    LowerFeedSuffix(a);
  }

  lemma LowerFeedSuffix(a: string)
    ensures Lower(a + "/feed") == Lower(a) + "/feed"
  {
    LowerAppend(a, "/feed");
    assert Lower("/feed") == "/feed";
  }

  /** `rstrip('/')` removed a run of slashes, which lower-casing leaves as slashes. */
  lemma StrippedSlashes(u: string)
    ensures var a := RStripChar(u, '/');
      u == a + u[|a|..] && forall i :: 0 <= i < |u| - |a| ==> Lower(u[|a|..])[i] == '/'
  {
    var a := RStripChar(u, '/');
    var t := u[|a|..];
    forall i | 0 <= i < |t|
      ensures Lower(t)[i] == '/'
    {
      assert t[i] == u[|a| + i];
    }
  }

  lemma SubstackHasNoSlash()
    ensures '/' !in "substack.com"
  {
  }

  /** A slash-free pattern found in `a` followed by slashes lies wholly in `a`. */
  lemma KeptBeforeSlashes(a: string, t: string, p: string)
    requires |p| > 0 && '/' !in p
    requires forall i :: 0 <= i < |t| ==> t[i] == '/'
    requires Contains(a + t, p)
    ensures Contains(a, p)
  {
    AbsentFirst(t, p);
    forall k | 0 < k < |p|
      ensures !StartsWith(t, p[k..])
    {
      if |p| - k <= |t| {
        assert t[..|p| - k][0] == t[0];
      }
    }
    var k, i := ContainsSplit(a, t, p);
  }

  // ----- Occurrences across a concatenation -----

  /**
   * An occurrence of `p` in `a + b` lies in `a` (at `i`), in `b`, or
   * straddles the junction with its first `k` characters ending `a`.
   */
  lemma ContainsSplit(a: string, b: string, p: string) returns (k: int, i: nat)
    requires Contains(a + b, p)
    ensures || (k == -1 && Contains(a, p) && i + |p| <= |a| && StartsWith(a[i..], p))
            || (k == -2 && Contains(b, p))
            || (0 < k < |p| && EndsWith(a, p[..k]) && StartsWith(b, p[k..]) && StartsWith(p, a[|a| - k..]))
  {
    i := ContainsWitness(a + b, p);
    if i + |p| <= |a| {
      assert a[i..i + |p|] == (a + b)[i..i + |p|];
      assert a[i..][..|p|] == a[i..i + |p|];
      ContainsAt(a, p, i);
      k := -1;
    } else if i >= |a| {
      assert b[i - |a|..i - |a| + |p|] == (a + b)[i..i + |p|];
      ContainsAt(b, p, i - |a|);
      k := -2;
    } else {
      k := |a| - i;
      var w := (a + b)[i..i + |p|];
      forall j | 0 <= j < k
        ensures a[|a| - k..][j] == w[..k][j]
      {
        assert w[j] == (a + b)[i + j];
      }
      forall j | 0 <= j < |p| - k
        ensures b[..|p| - k][j] == w[k..][j]
      {
        assert w[k + j] == (a + b)[|a| + j];
      }
      assert a[|a| - k..] == w[..k];
      assert b[..|p| - k] == w[k..];
      assert EndsWith(a, p[..k]);
      assert StartsWith(b, p[k..]);
      assert StartsWith(p, a[|a| - k..]);
    }
  }

  /** A pattern that occurs in `s` is no longer than `s` and its first character occurs in `s`. */
  lemma ContainsFirstChar(s: string, p: string)
    requires |p| > 0 && Contains(s, p)
    ensures |p| <= |s| && p[0] in s
  {
    var i := ContainsWitness(s, p);
    assert s[i] == s[i..i + |p|][0];
  }

  /** What occurs in a part occurs in the whole. */
  lemma ContainsInPart(a: string, b: string, p: string)
    requires Contains(a, p) || Contains(b, p)
    ensures Contains(a + b, p)
  {
    if Contains(a, p) {
      var i := ContainsWitness(a, p);
      assert (a + b)[i..i + |p|] == a[i..i + |p|];
      ContainsAt(a + b, p, i);
    } else {
      var i := ContainsWitness(b, p);
      assert (a + b)[|a| + i..|a| + i + |p|] == b[i..i + |p|];
      ContainsAt(a + b, p, |a| + i);
    }
  }

  /** No suffix of `pre` is a prefix of `p` (so no occurrence of `p` in `pre + x` can begin inside `pre`). */
  predicate NoTailMeets(pre: string, p: string)
  {
    forall i :: 0 <= i < |pre| ==> !(StartsWith(pre[i..], p) || StartsWith(p, pre[i..]))
  }

  lemma ContainsAfterPrefix(pre: string, x: string, p: string)
    requires |p| > 0 && NoTailMeets(pre, p) && Contains(pre + x, p)
    ensures Contains(x, p)
  {
    var k, i := ContainsSplit(pre, x, p);
  }

  lemma FirstCharSafe(pre: string, p: string)
    requires |p| > 0 && p[0] !in pre
    ensures NoTailMeets(pre, p)
  {
    forall i | 0 <= i < |pre|
      ensures !(StartsWith(pre[i..], p) || StartsWith(p, pre[i..]))
    {
      assert pre[i..][0] == pre[i];
    }
  }

  lemma HttpsPrefixSafe(p: string)
    requires p in BlockedPatterns || p in BlogHosts
    ensures NoTailMeets("https://", p)
  {
    if p == "substack.com" {
      var pre := "https://";
      forall i | 0 <= i < |pre|
        ensures !(StartsWith(pre[i..], p) || StartsWith(p, pre[i..]))
      {
        assert pre[i..][0] == pre[i];
        if i == 4 {
          assert pre[i..][1] == ':';
        }
      }
    } else {
      assert p[0] in "l10fmg";
      FirstCharSafe("https://", p);
    }
  }

  /** A prefix without upper-case letters passes through lower-casing unchanged. */
  lemma LowerAfterPrefix(pre: string, x: string)
    requires forall i :: 0 <= i < |pre| ==> !('A' <= pre[i] <= 'Z')
    ensures Lower(pre + x) == pre + Lower(x)
  {
    assert Lower(pre) == pre;
    LowerAppend(pre, x);
  }

  lemma LowerHttps(x: string)
    ensures Lower("https://" + x) == "https://" + Lower(x)
    ensures Lower("http://" + x) == "http://" + Lower(x)
  {
    LowerAfterPrefix("https://", x);
    LowerAfterPrefix("http://", x);
  }

  /** Rewriting the scheme to https creates no blocked pattern and no blog host. */
  lemma HttpsKeepsPatterns(x: string, p: string)
    requires p in BlockedPatterns || p in BlogHosts
    requires Contains(Lower("https://" + x), p)
    ensures Contains(Lower("http://" + x), p)
  {
    LowerHttps(x);
    HttpsPrefixSafe(p);
    ContainsAfterPrefix("https://", Lower(x), p);
    ContainsInPart("http://", Lower(x), p);
  }

  /** Where the rest of `p` from `k` begins "/feed", it reads '/' then 'f'. */
  lemma FeedAt(p: string, k: nat)
    requires k < |p| && StartsWith("/feed", p[k..])
    ensures p[k] == '/' && (k + 1 < |p| ==> p[k + 1] == 'f')
  {
    assert p[k] == p[k..][0];
    if k + 1 < |p| {
      assert p[k + 1] == p[k..][1];
    }
  }

  /** Wherever `p` could begin to meet a following "/feed", the character before is already a '/'. */
  predicate MeetsFeedSafely(p: string)
  {
    forall k :: 0 < k < |p| && StartsWith("/feed", p[k..]) ==> p[k - 1] == '/'
  }

  /** A pattern without '/' cannot begin to meet "/feed" at all. */
  lemma SlashFreeMeetsFeedSafely(p: string)
    requires '/' !in p
    ensures MeetsFeedSafely(p)
  {
    forall k | 0 < k < |p|
      ensures !StartsWith("/feed", p[k..])
    {
      assert p[k..][0] == p[k] && p[k] in p;
    }
  }

  /** In a scheme pattern the only '/' that could start "/feed" follows another '/'. */
  lemma SchemeMeetsFeedSafely(p: string)
    requires p == "file://" || p == "ftp://"
    ensures MeetsFeedSafely(p)
  {
    forall k | 0 < k < |p| && StartsWith("/feed", p[k..])
      ensures p[k - 1] == '/'
    {
      FeedAt(p, k);
    }
  }

  lemma PatternsMeetFeedSafely(p: string)
    requires p in BlockedPatterns
    ensures MeetsFeedSafely(p)
  {
    var i :| 0 <= i < |BlockedPatterns| && BlockedPatterns[i] == p;
    if i >= 21 {
      SchemeMeetsFeedSafely(p);
    } else {
      if i < 4 {
        assert '/' !in p;
      } else if i < 12 {
        assert '/' !in p;
      } else if i < 20 {
        assert '/' !in p;
      } else {
        assert '/' !in p;
      }
      SlashFreeMeetsFeedSafely(p);
    }
  }

  /** Appending "/feed" after a string that does not end in '/' creates no occurrence of such a pattern. */
  lemma FeedSuffixKeepsPatterns(a: string, p: string)
    requires MeetsFeedSafely(p) && !Contains("/feed", p)
    requires |a| == 0 || a[|a| - 1] != '/'
    requires Contains(Lower(a + "/feed"), p)
    ensures Contains(Lower(a), p)
  {
    LowerAppend(a, "/feed");
    assert Lower("/feed") == "/feed";
    var k, i := ContainsSplit(Lower(a), "/feed", p);
    if k > 0 {
      assert false;
    }
  }

  lemma PrefixKeepsOut(a: string, u: string, p: string)
    requires a <= u && !Contains(Lower(u), p)
    ensures !Contains(Lower(a), p)
  {
    if Contains(Lower(a), p) {
      assert Lower(u) == Lower(a) + Lower(u[|a|..]) by {
        assert u == a + u[|a|..];
        LowerAppend(a, u[|a|..]);
      }
      ContainsInPart(Lower(a), Lower(u[|a|..]), p);
    }
  }

  lemma PatternNotInFeed(p: string)
    requires p in BlockedPatterns
    ensures !Contains("/feed", p)
  {
    if Contains("/feed", p) {
      ContainsFirstChar("/feed", p);
    }
  }

  lemma SuffixStepUnblocked(u: string)
    requires !IsBlocked(u)
    ensures !IsBlocked(WithFeedSuffix(u))
  {
    if WithFeedSuffix(u) != u {
      var a := RStripChar(u, '/');
      forall p | p in BlockedPatterns
        ensures !Contains(Lower(a + "/feed"), p)
      {
        PrefixKeepsOut(a, u, p);
        PatternsMeetFeedSafely(p);
        PatternNotInFeed(p);
        if Contains(Lower(a + "/feed"), p) {
          FeedSuffixKeepsPatterns(a, p);
        }
      }
    }
  }

  lemma HttpsStepUnblocked(u: string)
    requires !IsBlocked(u)
    ensures !IsBlocked(WithHttps(u))
  {
    if WithHttps(u) != u {
      var x := u[7..];
      assert u == "http://" + x;
      forall p | p in BlockedPatterns
        ensures !Contains(Lower("https://" + x), p)
      {
        if Contains(Lower("https://" + x), p) {
          HttpsKeepsPatterns(x, p);
        }
      }
    }
  }

  /** Whether a blog host is mentioned does not change when the scheme becomes https. */
  lemma HttpsKeepsHost(u: string, d: string)
    requires d in BlogHosts
    ensures Contains(Lower(WithHttps(u)), d) ==> Contains(Lower(u), d)
  {
    if WithHttps(u) != u && Contains(Lower(WithHttps(u)), d) {
      var x := u[7..];
      assert u == "http://" + x;
      HttpsKeepsPatterns(x, d);
    }
  }

  lemma HttpsKeepsFeedEnding(u: string)
    requires EndsWith(u, "/feed")
    ensures EndsWith(WithHttps(u), "/feed")
  {
    if WithHttps(u) != u {
      var x := u[7..];
      var r := WithHttps(u);
      assert r == "https://" + x;
      assert |u| >= 7 && |r| == |u| + 1;
      if |x| < 5 {
        assert u[|u| - 5..] == "/feed";
        assert u[6] == '/';
        assert |x| == 4;
      } else {
        assert r[|r| - 5..] == x[|x| - 5..] == u[|u| - 5..];
      }
    }
  }

  lemma NormalisedEdges(u: string)
    requires NoEdgeSpace(u)
    ensures NoEdgeSpace(WithHttps(WithFeedSuffix(u)))
  {
    var v := WithFeedSuffix(u);
    if v != u {
      var a := RStripChar(u, '/');
      if |a| > 0 {
        assert v[0] == u[0];
      }
    }
  }

  /** On a normalised URL the Substack step changes nothing. */
  lemma SuffixFixed(u: string)
    ensures var r := WithHttps(WithFeedSuffix(u)); WithFeedSuffix(r) == r
  {
    var v := WithFeedSuffix(u);
    var r := WithHttps(v);
    if Contains(Lower(r), "substack.com") {
      HttpsKeepsHost(v, "substack.com");
      HttpsKeepsFeedEnding(v);
    }
  }

  /** On a normalised URL the https step changes nothing. */
  lemma HttpsFixed(u: string)
    ensures var r := WithHttps(WithFeedSuffix(u)); WithHttps(r) == r
  {
    var v := WithFeedSuffix(u);
    var r := WithHttps(v);
    if r != v {
      assert r[4] == 's';
    }
  }

  /**
   * Re-validating an accepted URL gives the same URL back, provided the
   * normalised URL still has the accepted shape.
   */
  lemma ValidateIdempotent(url: string, shape: string -> bool)
    requires Validate(url, shape).Accepted?
    requires shape(Validate(url, shape).url)
    ensures Validate(Validate(url, shape).url, shape) == Validate(url, shape)
  {
    var u := Strip(url);
    var r := WithHttps(WithFeedSuffix(u));
    NormalisedEdges(u);
    SuffixStepUnblocked(u);
    HttpsStepUnblocked(WithFeedSuffix(u));
    SuffixFixed(u);
    HttpsFixed(u);
    assert Strip(r) == r;
  }
}
