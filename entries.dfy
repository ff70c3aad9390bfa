/**
 * `fetch_entries_for_user` of substack_to_telegram.py over already-parsed
 * feeds: every entry with a date strictly after `since` becomes a digest
 * article (content cut to 2000 characters), collected feed by feed, and the
 * whole list is ordered newest first. Fetching and parsing a feed URL is a
 * function parameter.
 */
module Entries {
  import opened Wrappers
  import opened Summarizer

  /** One item of a parsed feed, reduced to the attributes the bot reads; dates are seconds. */
  datatype RawEntry = RawEntry(
    published: Option<int>,
    updated: Option<int>,
    title: Option<string>,
    link: Option<string>,
    content: Option<string>,   // the first content item's value, when the entry has a non-empty content list
    summary: Option<string>)

  /** A parsed feed: its title, if it has one, and its entries in feed order. */
  datatype Feed = Feed(title: Option<string>, entries: seq<RawEntry>)

  /** The entry's date: `published` when present, else `updated`. */
  function DateOf(e: RawEntry): Option<int>
  {
    if e.published.Some? then e.published else e.updated
  }

  /** Python's `s[:n]` for `n >= 0`. */
  function Take(s: string, n: nat): (r: string)
    ensures |r| <= n && r <= s
    ensures |s| <= n ==> r == s
  {
    if |s| <= n then s else s[..n]
  }

  /** The article an entry contributes, if it is dated strictly after `since`. */
  function Select(url: string, f: Feed, e: RawEntry, since: int): (r: Option<Article>)
    ensures r.Some? <==> DateOf(e).Some? && DateOf(e).value > since
    ensures r.Some? ==> r.value.published == DateOf(e).value && |r.value.summary| <= 2000 && r.value.scqr == None
  {
    match DateOf(e)
    case None => None
    case Some(p) =>
      if p > since then
        var body := if e.content.Some? then e.content.value else e.summary.GetOr("");
        Some(Article(e.title.GetOr("Untitled"), e.link.GetOr(""), p, Take(body, 2000), f.title.GetOr(url), None))
      else None
  }

  /** The articles contributed by the first entries `es` of one feed, in feed order. */
  function FromFeed(url: string, f: Feed, es: seq<RawEntry>, since: int): (r: seq<Article>)
    ensures |r| <= |es|
    ensures forall i :: 0 <= i < |r| ==> r[i].published > since && |r[i].summary| <= 2000
  {
    if es == [] then []
    else
      var init := FromFeed(url, f, es[..|es| - 1], since);
      match Select(url, f, es[|es| - 1], since)
      case None => init
      case Some(a) => init + [a]
  }

  /** Everything collected from the feeds at `urls`, feed after feed, before sorting. */
  function Collect(urls: seq<string>, fetch: string -> Feed, since: int): (r: seq<Article>)
    ensures forall i :: 0 <= i < |r| ==> r[i].published > since && |r[i].summary| <= 2000
  {
    if urls == [] then []
    else
      var u := urls[|urls| - 1];
      Collect(urls[..|urls| - 1], fetch, since) + FromFeed(u, fetch(u), fetch(u).entries, since)
  }

  // ----- sorted(..., key=published, reverse=True) -----

  predicate NewestFirstOrder(xs: seq<Article>)
  {
    forall i, j :: 0 <= i < j < |xs| ==> xs[i].published >= xs[j].published
  }

  /** Puts `x` after every element at least as new as it, so that equal dates keep their order. */
  function Insert(ys: seq<Article>, x: Article): (r: seq<Article>)
    ensures |r| == |ys| + 1
  {
    if ys == [] then [x]
    else if ys[0].published < x.published then [x] + ys
    else [ys[0]] + Insert(ys[1..], x)
  }

  /** Inserting adds exactly one copy of `x`. */
  lemma {:induction false} InsertPermutes(ys: seq<Article>, x: Article)
    ensures multiset(Insert(ys, x)) == multiset(ys) + multiset{x}
    decreases |ys|
  {
    if ys != [] && ys[0].published >= x.published {
      InsertPermutes(ys[1..], x);
      assert ys == [ys[0]] + ys[1..];
    }
  }

  /** A bound on the dates of `ys` and of `x` bounds the dates of the result. */
  lemma {:induction false} InsertBounded(ys: seq<Article>, x: Article, p: int)
    requires forall k :: 0 <= k < |ys| ==> ys[k].published <= p
    requires x.published <= p
    ensures forall k :: 0 <= k < |Insert(ys, x)| ==> Insert(ys, x)[k].published <= p
    decreases |ys|
  {
    if ys != [] && ys[0].published >= x.published {
      InsertBounded(ys[1..], x, p);
      var rest := Insert(ys[1..], x);
      assert Insert(ys, x) == [ys[0]] + rest;
      forall k | 0 < k < |ys| + 1
        ensures Insert(ys, x)[k].published <= p
      {
        assert Insert(ys, x)[k] == rest[k - 1];
      }
    }
  }

  lemma {:induction false} InsertKeepsOrder(ys: seq<Article>, x: Article)
    requires NewestFirstOrder(ys)
    ensures NewestFirstOrder(Insert(ys, x))
    decreases |ys|
  {
    if ys != [] && ys[0].published >= x.published {
      var rest := Insert(ys[1..], x);
      InsertKeepsOrder(ys[1..], x);
      InsertBounded(ys[1..], x, ys[0].published);
      var r := [ys[0]] + rest;
      assert Insert(ys, x) == r;
      forall i, j | 0 <= i < j < |r|
        ensures r[i].published >= r[j].published
      {
        assert r[j] == rest[j - 1];
        if i > 0 {
          assert r[i] == rest[i - 1];
        }
      }
    }
  }

  /** The list `sorted(..., reverse=True)` returns, as an insertion sort. */
  function NewestFirst(xs: seq<Article>): (r: seq<Article>)
    ensures NewestFirstOrder(r)
    ensures multiset(r) == multiset(xs)
  {
    if xs == [] then []
    else
      assert xs == xs[..|xs| - 1] + [xs[|xs| - 1]];
      InsertKeepsOrder(NewestFirst(xs[..|xs| - 1]), xs[|xs| - 1]);
      InsertPermutes(NewestFirst(xs[..|xs| - 1]), xs[|xs| - 1]);
      Insert(NewestFirst(xs[..|xs| - 1]), xs[|xs| - 1])
  }

  /**
   * The list `fetch_entries_for_user` returns holds exactly the collected
   * articles, each dated after `since` with at most 2000 characters of
   * content, newest first.
   */
  lemma FetchedEntries(urls: seq<string>, fetch: string -> Feed, since: int)
    ensures var r := NewestFirst(Collect(urls, fetch, since));
      && NewestFirstOrder(r)
      && multiset(r) == multiset(Collect(urls, fetch, since))
      && forall a :: a in r ==> a.published > since && |a.summary| <= 2000 && a.scqr == None
  {
    var c := Collect(urls, fetch, since);
    var r := NewestFirst(c);
    forall a | a in r
      ensures a.published > since && |a.summary| <= 2000 && a.scqr == None
    {
      assert a in multiset(c);
      CollectedUnsummarised(urls, fetch, since, a);
    }
  }

  lemma {:induction false} CollectedUnsummarised(urls: seq<string>, fetch: string -> Feed, since: int, a: Article)
    requires a in Collect(urls, fetch, since)
    ensures a.published > since && |a.summary| <= 2000 && a.scqr == None
    decreases |urls|
  {
    var c := Collect(urls, fetch, since);
    var k :| 0 <= k < |c| && c[k] == a;
    if urls != [] {
      var u := urls[|urls| - 1];
      var init := Collect(urls[..|urls| - 1], fetch, since);
      if a in init {
        CollectedUnsummarised(urls[..|urls| - 1], fetch, since, a);
      } else {
        FeedUnsummarised(u, fetch(u), fetch(u).entries, since, a);
      }
    }
  }

  lemma {:induction false} FeedUnsummarised(url: string, f: Feed, es: seq<RawEntry>, since: int, a: Article)
    requires a in FromFeed(url, f, es, since)
    ensures a.scqr == None
    decreases |es|
  {
    if es != [] {
      var init := FromFeed(url, f, es[..|es| - 1], since);
      if a in init {
        FeedUnsummarised(url, f, es[..|es| - 1], since, a);
      }
    }
  }

  /** Conversely, every entry dated after `since`, in any of the feeds, is collected. */
  lemma {:induction false} CollectComplete(urls: seq<string>, fetch: string -> Feed, since: int, i: nat, j: nat)
    requires i < |urls| && j < |fetch(urls[i]).entries|
    requires var e := fetch(urls[i]).entries[j]; DateOf(e).Some? && DateOf(e).value > since
    ensures Select(urls[i], fetch(urls[i]), fetch(urls[i]).entries[j], since).value in Collect(urls, fetch, since)
    decreases |urls|
  {
    var u := urls[|urls| - 1];
    if i < |urls| - 1 {
      CollectComplete(urls[..|urls| - 1], fetch, since, i, j);
    } else {
      FeedComplete(u, fetch(u), fetch(u).entries, since, j);
    }
  }

  lemma {:induction false} FeedComplete(url: string, f: Feed, es: seq<RawEntry>, since: int, j: nat)
    requires j < |es| && DateOf(es[j]).Some? && DateOf(es[j]).value > since
    ensures Select(url, f, es[j], since).value in FromFeed(url, f, es, since)
    decreases |es|
  {
    if j < |es| - 1 {
      FeedComplete(url, f, es[..|es| - 1], since, j);
    }
  }

  /**
   * `fetch_entries_for_user` once the user's feed list is known: a loop over
   * the feeds and, inside it, over each feed's entries, appending what
   * qualifies; then the newest-first sort.
   */
  method FetchEntries(urls: seq<string>, fetch: string -> Feed, since: int) returns (entries: seq<Article>)
    ensures entries == NewestFirst(Collect(urls, fetch, since))
  {
    var all: seq<Article> := [];
    for i := 0 to |urls|
      invariant all == Collect(urls[..i], fetch, since)
    {
      var url := urls[i];
      var f := fetch(url);
      ghost var before := all;
      for j := 0 to |f.entries|
        invariant all == before + FromFeed(url, f, f.entries[..j], since)
      {
        var picked := Select(url, f, f.entries[j], since);
        if picked.Some? {
          all := all + [picked.value];
        }
        assert f.entries[..j + 1][..j] == f.entries[..j];
      }
      assert f.entries[..|f.entries|] == f.entries;
      assert urls[..i + 1][..i] == urls[..i];
    }
    assert urls[..|urls|] == urls;
    entries := NewestFirst(all);
  }
}
