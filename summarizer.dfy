/**
 * The deterministic parts of ai_summarizer.py: `clean_html` (tag removal,
 * whitespace collapsing, entity decoding), the prompt-content truncation of
 * the two summary requests, and the slot marking of
 * `generate_batch_summaries`. The language-model request itself is a
 * function parameter.
 */
module Summarizer {
  import opened Wrappers
  import opened Text
  import opened Seqs

  // ----- clean_html -----

  /** A match of `<[^>]+>` starts at `i`: a '<', at least one character other than '>', then a '>'. */
  predicate TagAt(s: string, i: nat)
    requires i < |s|
  {
    s[i] == '<' && i + 1 < |s| && s[i + 1] != '>' && '>' in s[i + 2..]
  }

  /** Nothing in `s` matches `<[^>]+>`. */
  predicate NoTag(s: string)
  {
    forall i :: 0 <= i < |s| ==> !TagAt(s, i)
  }

  /**
   * `re.sub(r'<[^>]+>', '', s)`: scanning from the left, every match (from a
   * '<' through the first '>' after it) is dropped; every other character stays.
   */
  function StripTags(s: string): (r: string)
    ensures NoTag(r)
    ensures |r| <= |s|
    ensures forall i :: 0 <= i < |r| ==> r[i] in s
    ensures |s| > 0 && s[0] != '<' ==> |r| > 0 && r[0] == s[0]
    decreases |s|
  {
    if s == [] then []
    else if TagAt(s, 0) then
      var close := IndexOf(s, '>');
      var rest := StripTags(s[close + 1..]);
      assert forall i :: 0 <= i < |rest| ==> rest[i] in s by {
        forall i | 0 <= i < |rest|
          ensures rest[i] in s
        {
          var k :| close + 1 <= k < |s| && s[k] == rest[i];
        }
      }
      rest
    else
      var rest := StripTags(s[1..]);
      var r := [s[0]] + rest;
      forall i | 0 <= i < |r|
        ensures !TagAt(r, i)
      {
        if i > 0 {
          assert r[i..] == rest[i - 1..];
          assert !TagAt(rest, i - 1);
        } else if s[0] == '<' && |s| > 1 && s[1] != '>' {
          assert '>' !in s[1..];
          assert '>' !in r[2..];
        }
      }
      r
  }

  /** A '<' without a closing '>' later on is left alone: text without any '>' passes unchanged. */
  lemma {:induction false} UnclosedKept(s: string)
    requires '>' !in s
    ensures StripTags(s) == s
    decreases |s|
  {
    if s != [] {
      UnclosedKept(s[1..]);
      assert [s[0]] + s[1..] == s;
    }
  }

  /** `clean.replace(...)` for the six entities, `&amp;` first. */
  function DecodeEntities(s: string): string
  {
    var a := ReplaceAll(s, "&amp;", "&");
    var b := ReplaceAll(a, "&lt;", "<");
    var c := ReplaceAll(b, "&gt;", ">");
    var d := ReplaceAll(c, "&quot;", "\"");
    var e := ReplaceAll(d, "&#39;", "'");
    ReplaceAll(e, "&nbsp;", " ")
  }

  /**
   * `clean_html`: tags out, whitespace runs collapsed, entities decoded,
   * ends stripped. The result never starts or ends with whitespace.
   */
  function CleanHtml(s: string): (r: string)
    ensures NoEdgeSpace(r)
  {
    Strip(DecodeEntities(Collapse(StripTags(s))))
  }

  /** A single word passes `' '.join(s.split())` unchanged. */
  lemma {:induction false} CollapseWord(w: string)
    requires Word(w)
    ensures Collapse(w) == w
  {
    TakeAll(w);
    assert w[|w|..] == [];
    assert Words(w) == [w];
    assert JoinWords([w]) == w;
  }

  lemma {:induction false} TakeAll(w: string)
    requires forall j :: 0 <= j < |w| ==> !IsSpace(w[j])
    ensures TakeWord(w) == w
    decreases |w|
  {
    if w != [] {
      TakeAll(w[1..]);
      assert [w[0]] + w[1..] == w;
    }
  }

  lemma EscapedTagNoAmp()
    ensures ReplaceAll("&lt;b&gt;", "&amp;", "&") == "&lt;b&gt;"
  {
    var s := "&lt;b&gt;";
    assert s[..5] != "&amp;" by { assert s[..5][1] == 'l'; }
    assert s[1..] == "lt;b&gt;";
    ReplaceAbsentFrom("lt;b&gt;", "&amp;", "&", 4);
  }

  /** The pattern cannot start in the first `k` positions, and from there on the text is too short. */
  lemma {:induction false} ReplaceAbsentFrom(s: string, pat: string, rep: string, k: nat)
    requires |pat| > 0 && k <= |s| && '&' == pat[0]
    requires forall i :: 0 <= i < k ==> s[i] != '&'
    requires |s| - k < |pat|
    ensures ReplaceAll(s, pat, rep) == s
    decreases |s|
  {
    if |s| >= |pat| {
      assert s[..|pat|][0] == s[0];
      ReplaceAbsentFrom(s[1..], pat, rep, k - 1);
      assert [s[0]] + s[1..] == s;
    }
  }

  lemma EscapedTagLt()
    ensures ReplaceAll("&lt;b&gt;", "&lt;", "<") == "<b&gt;"
  {
    var s := "&lt;b&gt;";
    assert s[..4] == "&lt;";
    assert s[4..] == "b&gt;";
    assert "b&gt;"[..4] != "&lt;" by { assert "b&gt;"[..4][0] == 'b'; }
    assert "b&gt;"[1..] == "&gt;";
    assert "&gt;"[..4] != "&lt;" by { assert "&gt;"[1] == 'g'; }
    assert "&gt;"[1..] == "gt;";
    ReplaceAbsent("gt;", "&lt;", "<");
  }

  lemma EscapedTagGt()
    ensures ReplaceAll("<b&gt;", "&gt;", ">") == "<b>"
  {
    assert "<b&gt;"[..4] != "&gt;" by { assert "<b&gt;"[..4][0] == '<'; }
    assert "<b&gt;"[1..] == "b&gt;";
    assert "b&gt;"[..4] != "&gt;" by { assert "b&gt;"[..4][0] == 'b'; }
    assert "b&gt;"[1..] == "&gt;";
    assert "&gt;"[4..] == "";
  }

  lemma DecodeEscapedTag()
    ensures DecodeEntities("&lt;b&gt;") == "<b>"
  {
    EscapedTagNoAmp();
    EscapedTagLt();
    EscapedTagGt();
    ReplaceAbsent("<b>", "&quot;", "\"");
    ReplaceAbsent("<b>", "&#39;", "'");
    ReplaceAbsent("<b>", "&nbsp;", " ");
  }

  /** Entities are decoded after tags are removed, so an escaped tag comes out as a tag. */
  lemma EscapedTagSurvives()
    ensures CleanHtml("&lt;b&gt;") == "<b>"
  {
    EscapedTagIsWord();
    DecodeEscapedTag();
    assert NoEdgeSpace("<b>") by {
      assert "<b>"[0] == '<' && "<b>"[2] == '>';
    }
    CleanWord("&lt;b&gt;");
  }

  /** A single word without '>' is only entity-decoded and stripped. */
  lemma CleanWord(w: string)
    requires Word(w) && '>' !in w
    ensures CleanHtml(w) == Strip(DecodeEntities(w))
  {
    UnclosedKept(w);
    CollapseWord(w);
  }

  lemma EscapedTagIsWord()
    ensures Word("&lt;b&gt;")
  {
    var s := "&lt;b&gt;";
    forall j | 0 <= j < |s|
      ensures !IsSpace(s[j])
    {
      assert 'a' <= s[j] <= 'z' || s[j] == '&' || s[j] == ';';
    }
  }

  lemma DecodeDoubleEscape()
    ensures DecodeEntities("&amp;lt;") == "<"
  {
    var s := "&amp;lt;";
    assert ReplaceAll(s, "&amp;", "&") == "&lt;" by {
      assert s[..5] == "&amp;" && s[5..] == "lt;";
    }
    assert ReplaceAll("&lt;", "&lt;", "<") == "<" by {
      assert "&lt;"[..4] == "&lt;" && "&lt;"[4..] == "";
    }
    ReplaceAbsent("<", "&gt;", ">");
    ReplaceAbsent("<", "&quot;", "\"");
    ReplaceAbsent("<", "&#39;", "'");
    ReplaceAbsent("<", "&nbsp;", " ");
  }

  /** `&amp;` is decoded first, so a doubly escaped '<' comes out as '<'. */
  lemma DoubleEscapeDecoded()
    ensures CleanHtml("&amp;lt;") == "<"
  {
    PrintableWord("&amp;lt;");
    CleanWord("&amp;lt;");
    DecodeDoubleEscape();
    assert NoEdgeSpace("<");
  }

  // ----- prompt content and reply handling -----

  /** `if len(s) > n: s = s[:n] + "..."`: long text keeps its first `n` characters and gains "...". */
  function Truncate(s: string, n: nat): (r: string)
    ensures |r| <= n + 3
    ensures |s| <= n ==> r == s
    ensures |s| > n ==> |r| == n + 3 && r[..n] == s[..n] && EndsWith(r, "...")
  {
    if |s| > n then s[..n] + "..." else s
  }

  /** The article text `generate_scqr_summary` puts into its prompt. */
  function ScqrContent(content: string): (r: string)
    ensures |r| <= 2003
    ensures |CleanHtml(content)| <= 2000 ==> r == CleanHtml(content)
    ensures |CleanHtml(content)| > 2000 ==> r == CleanHtml(content)[..2000] + "..."
  {
    Truncate(CleanHtml(content), 2000)
  }

  /** The article text `generate_quick_summary` puts into its prompt. */
  function QuickContent(content: string): (r: string)
    ensures |r| <= 1503
    ensures |CleanHtml(content)| <= 1500 ==> r == CleanHtml(content)
    ensures |CleanHtml(content)| > 1500 ==> r == CleanHtml(content)[..1500] + "..."
  {
    Truncate(CleanHtml(content), 1500)
  }

  /**
   * The two `re.sub` calls that unwrap a reply fenced as a markdown code
   * block: a leading "```", an optional "json" and an optional newline go;
   * then a closing "```" (with the newline before it, if any) at the end,
   * or just before a final newline, goes.
   */
  function Unfence(c: string): (r: string)
    ensures |r| <= |c|
    ensures !StartsWith(c, "```") ==> r == c
  {
    if StartsWith(c, "```") then DropClose(DropOpen(c[3..])) else c
  }

  /** `(?:json)?\n?` after the opening fence. */
  function DropOpen(a: string): (r: string)
    ensures |r| <= |a|
  {
    var b := if StartsWith(a, "json") then a[4..] else a;
    if StartsWith(b, "\n") then b[1..] else b
  }

  /** `\n?```$`: the closing fence at the end, or just before a final newline. */
  function DropClose(d: string): (r: string)
    ensures |r| <= |d|
  {
    if EndsWith(d, "\n```") then d[..|d| - 4]
    else if EndsWith(d, "```") then d[..|d| - 3]
    else if EndsWith(d, "\n```\n") then d[..|d| - 5] + "\n"
    else if EndsWith(d, "```\n") then d[..|d| - 4] + "\n"
    else d
  }

  /** A reply fenced as a json code block comes out as exactly the fenced text. */
  lemma FencedReplyUnwrapped(x: string)
    ensures Unfence("```json\n" + x + "\n```") == x
  {
    var c := "```json\n" + x + "\n```";
    assert c[..3] == "```";
    var a := c[3..];
    assert a == "json\n" + x + "\n```";
    assert a[..4] == "json";
    var b := a[4..];
    assert b == "\n" + x + "\n```";
    assert b[..1] == "\n";
    var d := b[1..];
    assert d == x + "\n```";
    assert d[|d| - 4..] == "\n```";
    assert d[..|d| - 4] == x;
  }

  type Scqr = map<string, string>

  /** The four keys `generate_scqr_summary` insists on. */
  predicate HasScqrKeys(m: Scqr)
  {
    "situation" in m && "complication" in m && "question" in m && "resolution" in m
  }

  /**
   * `generate_scqr_summary`. `ask` stands for the chat-completion request on
   * (title, prompt content, feed name), giving the reply text or None on a
   * non-200 status or a request error; `parse` stands for `json.loads`.
   */
  function ScqrSummary(hasKey: bool, title: string, content: string, feedName: string,
                       ask: (string, string, string) -> Option<string>,
                       parse: string -> Option<Scqr>): (r: Option<Scqr>)
    ensures !hasKey ==> r == None
    ensures r.Some? ==> HasScqrKeys(r.value)
    ensures r.Some? <==>
      hasKey && ask(title, ScqrContent(content), feedName).Some? &&
      var m := parse(Unfence(Strip(ask(title, ScqrContent(content), feedName).value)));
      m.Some? && HasScqrKeys(m.value) && r == m
  {
    if !hasKey then None
    else
      match ask(title, ScqrContent(content), feedName)
      case None => None
      case Some(reply) =>
        match parse(Unfence(Strip(reply)))
        case None => None
        case Some(m) => if HasScqrKeys(m) then Some(m) else None
  }

  /** `generate_quick_summary`: the stripped reply to a request on (title, prompt content). */
  function QuickSummary(hasKey: bool, title: string, content: string,
                        ask: (string, string) -> Option<string>): (r: Option<string>)
    ensures !hasKey ==> r == None
    ensures r.Some? ==> NoEdgeSpace(r.value)
    ensures hasKey ==> (r.Some? <==> ask(title, QuickContent(content)).Some?)
  {
    if !hasKey then None
    else
      match ask(title, QuickContent(content))
      case None => None
      case Some(reply) => Some(Strip(reply))
  }

  // ----- generate_batch_summaries -----

  /** An entry of a digest, with the `scqr` slot the batch fills in. */
  datatype Article = Article(title: string, link: string, published: int, summary: string,
                             feedName: string, scqr: Option<Scqr>)

  /** Where Python's `xs[:n]` ends (and `xs[n:]` starts) on a list of length `len`, negative `n` included. */
  function SliceEnd(n: int, len: nat): (e: nat)
    ensures e <= len
    ensures 0 <= n ==> e == if n < len then n else len
    ensures n < 0 ==> e == if len + n > 0 then len + n else 0
  {
    if n >= 0 then (if n < len then n else len)
    else if len + n > 0 then len + n else 0
  }

  /** `generate_scqr_summary` on one article, with the key present. */
  function Summarize(a: Article, ask: (string, string, string) -> Option<string>,
                     parse: string -> Option<Scqr>): Option<Scqr>
  {
    ScqrSummary(true, a.title, a.summary, a.feedName, ask, parse)
  }

  /**
   * The list `generate_batch_summaries` returns: the same articles in the
   * same order, each with its `scqr` slot set and nothing else changed.
   */
  function Batch(xs: seq<Article>, maxArticles: int, hasKey: bool,
                 ask: (string, string, string) -> Option<string>,
                 parse: string -> Option<Scqr>): (r: seq<Article>)
    ensures |r| == |xs|
    ensures forall i :: 0 <= i < |xs| ==> r[i] == xs[i].(scqr := r[i].scqr)
    ensures forall i :: SliceEnd(maxArticles, |xs|) <= i < |xs| ==> r[i].scqr == None
    ensures !hasKey ==> forall i :: 0 <= i < |xs| ==> r[i].scqr == None
    ensures hasKey ==> forall i :: 0 <= i < SliceEnd(maxArticles, |xs|) ==>
      r[i].scqr == Summarize(xs[i], ask, parse)
  {
    var e := SliceEnd(maxArticles, |xs|);
    seq(|xs|, i requires 0 <= i < |xs| =>
      xs[i].(scqr := if hasKey && i < e then Summarize(xs[i], ask, parse) else None))
  }

  /** Without an API key the summariser is never consulted: any two summarisers give the same list. */
  lemma NoKeyIgnoresSummariser(xs: seq<Article>, maxArticles: int,
                               ask1: (string, string, string) -> Option<string>, parse1: string -> Option<Scqr>,
                               ask2: (string, string, string) -> Option<string>, parse2: string -> Option<Scqr>)
    ensures Batch(xs, maxArticles, false, ask1, parse1) == Batch(xs, maxArticles, false, ask2, parse2)
  {
    var r1 := Batch(xs, maxArticles, false, ask1, parse1);
    var r2 := Batch(xs, maxArticles, false, ask2, parse2);
    assert forall i :: 0 <= i < |xs| ==> r1[i] == r2[i];
  }

  /** Every summary the batch stores carries the four SCQR keys. */
  lemma BatchSummariesComplete(xs: seq<Article>, maxArticles: int, hasKey: bool,
                               ask: (string, string, string) -> Option<string>, parse: string -> Option<Scqr>,
                               i: nat)
    requires i < |xs|
    ensures Batch(xs, maxArticles, hasKey, ask, parse)[i].scqr.Some? ==>
      HasScqrKeys(Batch(xs, maxArticles, hasKey, ask, parse)[i].scqr.value)
  {
  }

  /** `generate_batch_summaries` on the list in place. */
  method GenerateBatch(articles: array<Article>, maxArticles: int, hasKey: bool,
                       ask: (string, string, string) -> Option<string>,
                       parse: string -> Option<Scqr>)
    modifies articles
    ensures articles[..] == Batch(old(articles[..]), maxArticles, hasKey, ask, parse)
  {
    ghost var xs := articles[..];
    ghost var ys := Batch(xs, maxArticles, hasKey, ask, parse);
    if !hasKey {
      ClearFrom(articles, 0);
    } else {
      var e := SliceEnd(maxArticles, articles.Length);
      SummariseUpTo(articles, e, a => Summarize(a, ask, parse));
      ClearFrom(articles, e);
    }
    assert forall j :: 0 <= j < articles.Length ==> articles[j] == ys[j];
  }

  /** The loop that empties the `scqr` slot of every article from `from` on. */
  method ClearFrom(articles: array<Article>, from: nat)
    requires from <= articles.Length
    modifies articles
    ensures forall j :: 0 <= j < from ==> articles[j] == old(articles[j])
    ensures forall j :: from <= j < articles.Length ==> articles[j] == old(articles[j]).(scqr := None)
  {
    ghost var xs := articles[..];
    for i := from to articles.Length
      invariant forall j :: 0 <= j < from ==> articles[j] == xs[j]
      invariant forall j :: from <= j < i ==> articles[j] == xs[j].(scqr := None)
      invariant forall j :: i <= j < articles.Length ==> articles[j] == xs[j]
    {
      articles[i] := articles[i].(scqr := None);
    }
  }

  /** The loop that stores `summarise`'s answer for each of the first `e` articles. */
  method SummariseUpTo(articles: array<Article>, e: nat, summarise: Article -> Option<Scqr>)
    requires e <= articles.Length
    modifies articles
    ensures forall j :: 0 <= j < e ==> articles[j] == old(articles[j]).(scqr := summarise(old(articles[j])))
    ensures forall j :: e <= j < articles.Length ==> articles[j] == old(articles[j])
  {
    ghost var xs := articles[..];
    for i := 0 to e
      invariant forall j :: 0 <= j < i ==> articles[j] == xs[j].(scqr := summarise(xs[j]))
      invariant forall j :: i <= j < articles.Length ==> articles[j] == xs[j]
    {
      var a := articles[i];
      articles[i] := a.(scqr := summarise(a));
    }
  }
}
