/**
 * The stateful paths of substack_to_telegram.py: the gate every incoming
 * message passes (`handle_message`), the feed commands, `/digest`
 * (`handle_digest`), the structure of `build_digest`, and the once-a-day
 * loop of `run_digest_mode`. Telegram, the feed fetcher and the
 * summariser are parameters; message wording is not modelled, only which
 * message is chosen and what it carries.
 */
module Bot {
  import opened Wrappers
  import opened Text
  import opened Seqs
  import opened Accounts
  import opened FeedUrl
  import opened BotConfig
  import opened UserState
  import opened FeedStore
  import opened Summarizer
  import opened Entries
  import opened BotText

  // ----- handle_message -----

  /** The handlers of the command table; "/help" shares the start handler and "/dailydigest" the digest one. */
  datatype Handler = OnStart | OnFeedList | OnAddFeed | OnRemoveFeed | OnDigest | OnStatus | OnUpgrade | OnManage

  const KnownCommands: set<string> :=
    {"/start", "/help", "/feedlist", "/addfeed", "/removefeed", "/digest", "/dailydigest", "/status", "/upgrade", "/manage"}

  /** `handlers.get(command)`. */
  function Route(command: string): (r: Option<Handler>)
    ensures r.Some? <==> command in KnownCommands
    ensures r == Some(OnDigest) <==> command == "/digest" || command == "/dailydigest"
    ensures r == Some(OnStart) <==> command == "/start" || command == "/help"
  {
    if command == "/start" || command == "/help" then Some(OnStart)
    else if command == "/feedlist" then Some(OnFeedList)
    else if command == "/addfeed" then Some(OnAddFeed)
    else if command == "/removefeed" then Some(OnRemoveFeed)
    else if command == "/digest" || command == "/dailydigest" then Some(OnDigest)
    else if command == "/status" then Some(OnStatus)
    else if command == "/upgrade" then Some(OnUpgrade)
    else if command == "/manage" then Some(OnManage)
    else None
  }

  /** What `handle_message` does with a message. */
  datatype Reply =
    | BlockedNotice(reason: Option<string>)
    | RateLimitNotice(wait: int)
    | Ignored
    | Dispatch(handler: Handler, args: string)
    | UnknownCommand

  /**
   * `handle_message` up to the choice of handler: the block check, then the
   * "command" rate limit, then the leading-'/' test, then the command table.
   */
  function Gate(s: State, c: Config, uid: string, text: string, now: int): (r: (Reply, State))
    ensures var s1 := Ensure(s, uid, now);
      && (r.0.BlockedNotice? <==> Record(s, uid, now).security.blocked)
      && (r.0.BlockedNotice? ==> r.1 == s1)
      && (!r.0.BlockedNotice? ==> r.1 == RateCheck(s1, c, uid, "command", now).1)
      && (r.0.RateLimitNotice? <==> !r.0.BlockedNotice? && RateCheck(s1, c, uid, "command", now).0.Denied?)
      && (r.0.RateLimitNotice? ==> r.0.wait == RateCheck(s1, c, uid, "command", now).0.wait)
    ensures r.0.Ignored? <==> !r.0.BlockedNotice? && !r.0.RateLimitNotice? && !StartsWith(Strip(text), "/")
    ensures r.0.Dispatch? || r.0.UnknownCommand? ==> StartsWith(Strip(text), "/")
    ensures r.0.Dispatch? ==>
      var (command, args) := ParseCommand(Strip(text));
      StartsWith(Strip(text), "/") && Route(command) == Some(r.0.handler) && r.0.args == args
    ensures r.0.UnknownCommand? ==> Route(ParseCommand(Strip(text)).0).None?
  {
    var (blocked, reason, s1) := BlockedStatus(s, uid, now);
    if blocked then (BlockedNotice(reason), s1)
    else
      var (rate, s2) := RateCheck(s1, c, uid, "command", now);
      if rate.Denied? then (RateLimitNotice(rate.wait), s2)
      else
        var t := Strip(text);
        if !StartsWith(t, "/") then (Ignored, s2)
        else
          var (command, args) := ParseCommand(t);
          match Route(command)
          case None => (UnknownCommand, s2)
          case Some(h) => (Dispatch(h, args), s2)
  }

  /** A blocked user is turned away before the rate limiter: no "command" budget is spent. */
  lemma BlockedSpendsNoBudget(s: State, c: Config, uid: string, text: string, now: int)
    requires Record(s, uid, now).security.blocked
    ensures Gate(s, c, uid, text, now) == (BlockedNotice(Record(s, uid, now).security.blockReason), Ensure(s, uid, now))
  {
  }

  /**
   * Plain text is rate-limited before it is recognised as not being a
   * command: an allowed message without a leading '/' still stores a stamp.
   */
  lemma PlainTextSpendsBudget(s: State, c: Config, uid: string, text: string, now: int)
    requires !Record(s, uid, now).security.blocked && !IsPrivileged(c, uid)
    requires !StartsWith(Strip(text), "/")
    requires RateCheck(Ensure(s, uid, now), c, uid, "command", now).0.Allowed?
    ensures var (reply, s') := Gate(s, c, uid, text, now);
      var a := Record(s, uid, now);
      && reply == Ignored
      && s'.accounts[uid].limits.command == Prune(a.limits.command, now, Window(Command)) + [now]
  {
    var s1 := Ensure(s, uid, now);
    assert Record(s1, uid, now) == Record(s, uid, now);
  }

  /** `handle_addfeed`: blank arguments get the usage text and touch nothing; otherwise `add_feed` on the stripped URL. */
  function AddFeedCommand(s: State, c: Config, uid: string, args: string, shape: string -> bool, now: int): (r: (Option<AddResult>, State))
    ensures Strip(args) == [] <==> r.0.None?
    ensures r.0.None? ==> r.1 == s
    ensures r.0.Some? ==> r == (Some(UserState.AddFeed(s, c, uid, Strip(args), shape, now).0), UserState.AddFeed(s, c, uid, Strip(args), shape, now).1)
  {
    var url := Strip(args);
    if url == [] then (None, s)
    else
      var (res, s') := UserState.AddFeed(s, c, uid, url, shape, now);
      (Some(res), s')
  }

  /** `handle_removefeed`: blank arguments get the usage text and touch nothing; otherwise `remove_feed` on the stripped argument. */
  function RemoveFeedCommand(s: State, uid: string, args: string, now: int): (r: (Option<RemoveResult>, State))
    ensures Strip(args) == [] <==> r.0.None?
    ensures r.0.None? ==> r.1 == s
    ensures r.0.Some? ==> r == (Some(UserState.RemoveFeed(s, uid, Strip(args), now).0), UserState.RemoveFeed(s, uid, Strip(args), now).1)
  {
    var arg := Strip(args);
    if arg == [] then (None, s)
    else
      var (res, s') := UserState.RemoveFeed(s, uid, arg, now);
      (Some(res), s')
  }

  // ----- build_digest -----

  /** What an entry of the digest shows under its heading. */
  datatype Body =
    | ScqrBody(situation: string, complication: string, question: string, resolution: string)
    | FallbackBody(summary: Option<string>)

  /** One numbered entry of the digest; every text field is already escaped. */
  datatype Item = Item(number: nat, title: string, feedName: string, link: string, published: int, body: Body)

  datatype Digest = NoPosts | Posts(count: nat, items: seq<Item>, upsell: bool)

  /** `generate_batch_summaries(entries, max_articles=10)`. */
  const MaxSummarised := 10

  /** `scqr.get(key, 'N/A')`. */
  function Field(m: Scqr, key: string): string
  {
    if key in m then m[key] else "N/A"
  }

  /** The body of one entry: its SCQR summary when it has a non-empty one, else the cleaned RSS summary. */
  function BodyOf(a: Article): (b: Body)
    ensures b.ScqrBody? <==> a.scqr.Some? && |a.scqr.value| > 0
    ensures b.ScqrBody? ==> '<' !in b.situation && '<' !in b.complication && '<' !in b.question && '<' !in b.resolution
    ensures b.FallbackBody? ==> b.summary == FallbackSummary(a.summary)
  {
    if a.scqr.Some? && |a.scqr.value| > 0 then
      var m := a.scqr.value;
      ScqrBody(EscapeHtml(Field(m, "situation")), EscapeHtml(Field(m, "complication")),
               EscapeHtml(Field(m, "question")), EscapeHtml(Field(m, "resolution")))
    else FallbackBody(FallbackSummary(a.summary))
  }

  /** The entry `build_digest` renders as number `n`. */
  function ItemOf(n: nat, a: Article): (it: Item)
    ensures it.number == n && it.link == a.link && it.published == a.published && it.body == BodyOf(a)
    ensures it.title == EscapeHtml(a.title) && it.feedName == EscapeHtml(a.feedName)
    ensures '<' !in it.title && '>' !in it.title && '<' !in it.feedName && '>' !in it.feedName
  {
    Item(n, EscapeHtml(a.title), EscapeHtml(a.feedName), a.link, a.published, BodyOf(a))
  }

  /** The entries of the digest, numbered from 1 in list order. */
  function ItemsOf(es: seq<Article>): (items: seq<Item>)
    ensures |items| == |es|
    decreases |es|
  {
    if es == [] then []
    else ItemsOf(es[..|es| - 1]) + [ItemOf(|es|, es[|es| - 1])]
  }

  /** The `i`-th rendered entry is the `i`-th article, numbered `i + 1`. */
  lemma {:induction false} ItemsOfAt(es: seq<Article>, i: nat)
    requires i < |es|
    ensures ItemsOf(es)[i] == ItemOf(i + 1, es[i])
    decreases |es|
  {
    if i < |es| - 1 {
      ItemsOfAt(es[..|es| - 1], i);
    }
  }

  /**
   * `build_digest`: no entries gives the fixed notice and reads nothing;
   * otherwise the tier is resolved (which may write a lapsed downgrade),
   * entries are summarised when the tier has AI summaries and a key is
   * set, and the free-tier upsell is added for a free user when a key is set.
   */
  function BuildDigest(s: State, c: Config, uid: string, entries: seq<Article>, now: int, hasKey: bool,
                       ask: (string, string, string) -> Option<string>, parse: string -> Option<Scqr>): (r: (Digest, State))
    ensures entries == [] <==> r.0 == NoPosts
    ensures entries == [] ==> r.1 == s
    ensures r.0.Posts? ==> r.0.count == |entries| == |r.0.items|
    ensures entries != [] ==> OnlyTouches(s, r.1, uid)
    ensures entries != [] ==>
      && r.1.accounts[uid].lastSentDate == Record(s, uid, now).lastSentDate
      && r.1.accounts[uid].feeds <= Record(s, uid, now).feeds
    ensures entries != [] ==> r.1 == Ensure(TierLimits(s, c, uid, now).1, uid, now)
    ensures r.0.Posts? ==>
      var sub := Record(s, uid, now).sub;
      (r.0.upsell <==> hasKey && (sub.tier == "free" || (!IsPrivileged(c, uid) && Lapsed(sub, now))))
  {
    if entries == [] then (NoPosts, s)
    else
      var s2 := Ensure(TierLimits(s, c, uid, now).1, uid, now);
      (Posts(|entries|, ItemsOf(Shown(s, c, uid, entries, now, hasKey, ask, parse)), s2.accounts[uid].sub.tier == "free" && hasKey), s2)
  }

  /** What `build_digest` lists: `entries` as they are, or after the batch summariser when the tier allows it. */
  function Shown(s: State, c: Config, uid: string, entries: seq<Article>, now: int, hasKey: bool,
                 ask: (string, string, string) -> Option<string>, parse: string -> Option<Scqr>): (shown: seq<Article>)
    ensures |shown| == |entries|
  {
    if TierLimits(s, c, uid, now).0.aiSummaries && hasKey then Batch(entries, MaxSummarised, true, ask, parse) else entries
  }

  lemma ItemsOfDigest(s: State, c: Config, uid: string, entries: seq<Article>, now: int, hasKey: bool,
                      ask: (string, string, string) -> Option<string>, parse: string -> Option<Scqr>)
    requires entries != []
    ensures BuildDigest(s, c, uid, entries, now, hasKey, ask, parse).0.items == ItemsOf(Shown(s, c, uid, entries, now, hasKey, ask, parse))
  {
  }

  /**
   * Every title, feed name and summary field of a digest is escaped, and
   * every fallback summary fits in 200 characters.
   */
  lemma DigestIsEscaped(s: State, c: Config, uid: string, entries: seq<Article>, now: int, hasKey: bool,
                        ask: (string, string, string) -> Option<string>, parse: string -> Option<Scqr>)
    ensures var d := BuildDigest(s, c, uid, entries, now, hasKey, ask, parse).0;
      d.Posts? ==> forall i :: 0 <= i < |d.items| ==>
        && d.items[i].number == i + 1
        && '<' !in d.items[i].title && '<' !in d.items[i].feedName
        && (d.items[i].body.FallbackBody? && d.items[i].body.summary.Some? ==> |d.items[i].body.summary.value| <= 200)
  {
    if entries != [] {
      ItemsOfDigest(s, c, uid, entries, now, hasKey, ask, parse);
      var shown := Shown(s, c, uid, entries, now, hasKey, ask, parse);
      forall i | 0 <= i < |shown|
        ensures ItemsOf(shown)[i] == ItemOf(i + 1, shown[i])
      {
        ItemsOfAt(shown, i);
      }
    }
  }

  /**
   * Fetched entries carry no summary, so only the first ten entries of a
   * digest can show one, and none does unless the tier has AI summaries and
   * a key is set.
   */
  lemma OnlyFirstTenSummarised(s: State, c: Config, uid: string, entries: seq<Article>, now: int, hasKey: bool,
                               ask: (string, string, string) -> Option<string>, parse: string -> Option<Scqr>)
    requires forall i :: 0 <= i < |entries| ==> entries[i].scqr == None
    ensures var d := BuildDigest(s, c, uid, entries, now, hasKey, ask, parse).0;
      d.Posts? ==> forall i :: 0 <= i < |d.items| && d.items[i].body.ScqrBody? ==>
        i < MaxSummarised && hasKey && TierLimits(s, c, uid, now).0.aiSummaries
  {
    if entries != [] {
      ItemsOfDigest(s, c, uid, entries, now, hasKey, ask, parse);
      var shown := Shown(s, c, uid, entries, now, hasKey, ask, parse);
      forall i | 0 <= i < |shown| && ItemsOf(shown)[i].body.ScqrBody?
        ensures i < MaxSummarised && hasKey && TierLimits(s, c, uid, now).0.aiSummaries
      {
        ItemsOfAt(shown, i);
        assert shown[i].scqr.Some?;
      }
    }
  }

  // ----- handle_digest -----

  /** `LOOKBACK_HOURS` in seconds. */
  const LookbackSeconds := 24 * 3600

  datatype DigestReply = DigestRateLimited(wait: int) | NoFeedsYet | DigestReady(digest: Digest)

  /**
   * `handle_digest`: the "digest_request" limit first, then the feed list,
   * then fetching the last day's entries and building the digest.
   */
  function DigestCommand(s: State, c: Config, uid: string, now: int, fetch: string -> Feed, hasKey: bool,
                         ask: (string, string, string) -> Option<string>, parse: string -> Option<Scqr>): (r: (DigestReply, State))
    ensures r.0.DigestRateLimited? <==> RateCheck(s, c, uid, "digest_request", now).0.Denied?
    ensures r.0.DigestRateLimited? ==> r.1 == RateCheck(s, c, uid, "digest_request", now).1
    ensures r.0.DigestRateLimited? ==> r.0.wait == RateCheck(s, c, uid, "digest_request", now).0.wait
    ensures var s1 := RateCheck(s, c, uid, "digest_request", now).1;
      r.0.NoFeedsYet? <==> !r.0.DigestRateLimited? && Record(s1, uid, now).feeds == []
    ensures r.0.DigestReady? ==>
      var s1 := Ensure(RateCheck(s, c, uid, "digest_request", now).1, uid, now);
      var entries := NewestFirst(Collect(s1.accounts[uid].feeds, fetch, now - LookbackSeconds));
      r == (DigestReady(BuildDigest(s1, c, uid, entries, now, hasKey, ask, parse).0),
            BuildDigest(s1, c, uid, entries, now, hasKey, ask, parse).1)
  {
    var (rate, s1) := RateCheck(s, c, uid, "digest_request", now);
    if rate.Denied? then (DigestRateLimited(rate.wait), s1)
    else
      var s2 := Ensure(s1, uid, now);
      var feeds := s2.accounts[uid].feeds;
      if feeds == [] then (NoFeedsYet, s2)
      else
        var entries := NewestFirst(Collect(feeds, fetch, now - LookbackSeconds));
        var (d, s3) := BuildDigest(s2, c, uid, entries, now, hasKey, ask, parse);
        (DigestReady(d), s3)
  }

  /** A rate-limited `/digest` is answered before any feed is fetched: the fetcher cannot affect it. */
  lemma LimitedDigestFetchesNothing(s: State, c: Config, uid: string, now: int, fetch1: string -> Feed, fetch2: string -> Feed,
                                    hasKey: bool, ask: (string, string, string) -> Option<string>, parse: string -> Option<Scqr>)
    requires RateCheck(s, c, uid, "digest_request", now).0.Denied?
    ensures DigestCommand(s, c, uid, now, fetch1, hasKey, ask, parse) == DigestCommand(s, c, uid, now, fetch2, hasKey, ask, parse)
    ensures DigestCommand(s, c, uid, now, fetch1, hasKey, ask, parse).0.DigestRateLimited?
  {
  }

  // ----- run_digest_mode -----

  /** `uid` has already been sent today's digest. */
  predicate Stamped(s: State, uid: string, today: string)
  {
    uid in s.accounts && s.accounts[uid].lastSentDate == Some(today)
  }

  /** The users the digest run visits: every known id in insertion order, else the fallback chat id if one is set. */
  function DigestUsers(s: State, fallback: Option<string>): (users: seq<string>)
    ensures s.order != [] ==> users == s.order
    ensures s.order == [] ==> |users| <= 1
  {
    if s.order != [] then s.order
    else if fallback.Some? && fallback.value != [] then [fallback.value]
    else []
  }

  /**
   * One user's turn in `run_digest_mode`: skipped when already sent today or
   * without feeds; otherwise the digest is built and, only when it is
   * delivered, today is recorded. The result says whether it was delivered.
   */
  function DigestStep(s: State, c: Config, uid: string, today: string, now: int, fetch: string -> Feed, hasKey: bool,
                      ask: (string, string, string) -> Option<string>, parse: string -> Option<Scqr>,
                      delivered: (string, Digest) -> bool): (r: (bool, State))
    ensures Stamped(s, uid, today) ==> r == (false, s)
    ensures Record(s, uid, now).feeds == [] ==> r == (false, Ensure(s, uid, now))
    ensures r.0 ==> !Stamped(s, uid, today) && Record(s, uid, now).feeds != []
    ensures Stamped(r.1, uid, today) <==> Stamped(s, uid, today) || r.0
    ensures !Stamped(s, uid, today) && Record(s, uid, now).feeds != [] ==>
      var entries := NewestFirst(Collect(Record(s, uid, now).feeds, fetch, now - LookbackSeconds));
      r.0 == delivered(uid, BuildDigest(Ensure(s, uid, now), c, uid, entries, now, hasKey, ask, parse).0)
    ensures OnlyTouches(s, r.1, uid)
  {
    var s1 := Ensure(s, uid, now);
    var a := s1.accounts[uid];
    if a.lastSentDate == Some(today) || a.feeds == [] then (false, s1)
    else
      var entries := NewestFirst(Collect(a.feeds, fetch, now - LookbackSeconds));
      var (d, s2) := BuildDigest(s1, c, uid, entries, now, hasKey, ask, parse);
      if delivered(uid, d) then (true, UserState.SetLastSentDate(s2, uid, today, now))
      else
        OnlyTouchesChain(s, s1, s1, s2, uid);
        (false, s2)
  }

  /** The digest run over `users`: the ids delivered to, in visiting order, and the final state. */
  function DigestRun(s: State, c: Config, users: seq<string>, today: string, now: int, fetch: string -> Feed, hasKey: bool,
                     ask: (string, string, string) -> Option<string>, parse: string -> Option<Scqr>,
                     delivered: (string, Digest) -> bool): (r: (seq<string>, State))
    ensures forall i :: 0 <= i < |r.0| ==> r.0[i] in users
  {
    if users == [] then ([], s)
    else
      var (sent, s1) := DigestRun(s, c, users[..|users| - 1], today, now, fetch, hasKey, ask, parse, delivered);
      var uid := users[|users| - 1];
      var (ok, s2) := DigestStep(s1, c, uid, today, now, fetch, hasKey, ask, parse, delivered);
      (if ok then sent + [uid] else sent, s2)
  }

  lemma StepKeepsStamped(s: State, c: Config, uid: string, u: string, today: string, now: int, fetch: string -> Feed, hasKey: bool,
                         ask: (string, string, string) -> Option<string>, parse: string -> Option<Scqr>,
                         delivered: (string, Digest) -> bool)
    requires Stamped(s, u, today)
    ensures Stamped(DigestStep(s, c, uid, today, now, fetch, hasKey, ask, parse, delivered).1, u, today)
  {
  }

  /** A user stamped with today stays stamped through a whole run. */
  lemma {:induction false} RunKeepsStamped(s: State, c: Config, users: seq<string>, u: string, today: string, now: int,
                                           fetch: string -> Feed, hasKey: bool,
                                           ask: (string, string, string) -> Option<string>, parse: string -> Option<Scqr>,
                                           delivered: (string, Digest) -> bool)
    requires Stamped(s, u, today)
    ensures Stamped(DigestRun(s, c, users, today, now, fetch, hasKey, ask, parse, delivered).1, u, today)
    decreases |users|
  {
    if users != [] {
      var init := users[..|users| - 1];
      RunKeepsStamped(s, c, init, u, today, now, fetch, hasKey, ask, parse, delivered);
      var s1 := DigestRun(s, c, init, today, now, fetch, hasKey, ask, parse, delivered).1;
      StepKeepsStamped(s1, c, users[|users| - 1], u, today, now, fetch, hasKey, ask, parse, delivered);
    }
  }

  /** Everyone a run delivers to is stamped with today when the run ends. */
  lemma {:induction false} SentAreStamped(s: State, c: Config, users: seq<string>, u: string, today: string, now: int,
                                          fetch: string -> Feed, hasKey: bool,
                                          ask: (string, string, string) -> Option<string>, parse: string -> Option<Scqr>,
                                          delivered: (string, Digest) -> bool)
    requires u in DigestRun(s, c, users, today, now, fetch, hasKey, ask, parse, delivered).0
    ensures Stamped(DigestRun(s, c, users, today, now, fetch, hasKey, ask, parse, delivered).1, u, today)
    decreases |users|
  {
    var init := users[..|users| - 1];
    var uid := users[|users| - 1];
    var (sent, s1) := DigestRun(s, c, init, today, now, fetch, hasKey, ask, parse, delivered);
    if u in sent {
      SentAreStamped(s, c, init, u, today, now, fetch, hasKey, ask, parse, delivered);
      StepKeepsStamped(s1, c, uid, u, today, now, fetch, hasKey, ask, parse, delivered);
    }
  }

  /** A run delivers nothing to a user already stamped with today when it starts. */
  lemma {:induction false} StampedNotSent(s: State, c: Config, users: seq<string>, u: string, today: string, now: int,
                                          fetch: string -> Feed, hasKey: bool,
                                          ask: (string, string, string) -> Option<string>, parse: string -> Option<Scqr>,
                                          delivered: (string, Digest) -> bool)
    requires Stamped(s, u, today)
    ensures u !in DigestRun(s, c, users, today, now, fetch, hasKey, ask, parse, delivered).0
    decreases |users|
  {
    if users != [] {
      var init := users[..|users| - 1];
      StampedNotSent(s, c, init, u, today, now, fetch, hasKey, ask, parse, delivered);
      RunKeepsStamped(s, c, init, u, today, now, fetch, hasKey, ask, parse, delivered);
    }
  }

  /** A run over ids other than `u` leaves `u`'s record, or its absence, as it was. */
  lemma {:induction false} RunLeavesOthers(s: State, c: Config, users: seq<string>, u: string, today: string, now: int,
                                           fetch: string -> Feed, hasKey: bool,
                                           ask: (string, string, string) -> Option<string>, parse: string -> Option<Scqr>,
                                           delivered: (string, Digest) -> bool)
    requires u !in users
    ensures var s' := DigestRun(s, c, users, today, now, fetch, hasKey, ask, parse, delivered).1;
      (u in s'.accounts <==> u in s.accounts) && (u in s.accounts ==> s'.accounts[u] == s.accounts[u])
    decreases |users|
  {
    if users != [] {
      var init := users[..|users| - 1];
      var uid := users[|users| - 1];
      assert users == init + [uid];
      RunLeavesOthers(s, c, init, u, today, now, fetch, hasKey, ask, parse, delivered);
      var s1 := DigestRun(s, c, init, today, now, fetch, hasKey, ask, parse, delivered).1;
      StepLeavesOthers(s1, c, uid, u, today, now, fetch, hasKey, ask, parse, delivered);
    }
  }

  lemma StepLeavesOthers(s: State, c: Config, uid: string, u: string, today: string, now: int,
                         fetch: string -> Feed, hasKey: bool,
                         ask: (string, string, string) -> Option<string>, parse: string -> Option<Scqr>,
                         delivered: (string, Digest) -> bool)
    requires u != uid
    ensures var s' := DigestStep(s, c, uid, today, now, fetch, hasKey, ask, parse, delivered).1;
      (u in s'.accounts <==> u in s.accounts) && (u in s.accounts ==> s'.accounts[u] == s.accounts[u])
  {
  }

  /** After a run a user is stamped with today exactly when they were before it or the run delivered to them. */
  lemma {:induction false} RunStamped(s: State, c: Config, users: seq<string>, u: string, today: string, now: int,
                                      fetch: string -> Feed, hasKey: bool,
                                      ask: (string, string, string) -> Option<string>, parse: string -> Option<Scqr>,
                                      delivered: (string, Digest) -> bool)
    ensures var r := DigestRun(s, c, users, today, now, fetch, hasKey, ask, parse, delivered);
      Stamped(r.1, u, today) <==> Stamped(s, u, today) || u in r.0
    decreases |users|
  {
    if users != [] {
      RunStamped(s, c, users[..|users| - 1], u, today, now, fetch, hasKey, ask, parse, delivered);
    }
  }

  /**
   * Nobody due is skipped: a visited user not yet stamped with today, with at
   * least one feed and whose delivery goes through, is delivered to.
   */
  lemma {:induction false} RunServes(s: State, c: Config, users: seq<string>, u: string, today: string, now: int,
                                     fetch: string -> Feed, hasKey: bool,
                                     ask: (string, string, string) -> Option<string>, parse: string -> Option<Scqr>,
                                     delivered: (string, Digest) -> bool)
    requires u in users && !Stamped(s, u, today) && Record(s, u, now).feeds != []
    requires forall d :: delivered(u, d)
    ensures u in DigestRun(s, c, users, today, now, fetch, hasKey, ask, parse, delivered).0
    decreases |users|
  {
    var init := users[..|users| - 1];
    if u in init {
      RunServes(s, c, init, u, today, now, fetch, hasKey, ask, parse, delivered);
    } else {
      assert users == init + [u];
      RunLeavesOthers(s, c, init, u, today, now, fetch, hasKey, ask, parse, delivered);
      var s1 := DigestRun(s, c, init, today, now, fetch, hasKey, ask, parse, delivered).1;
      assert Record(s1, u, now) == Record(s, u, now);
    }
  }

  /**
   * Once a day: whoever one run delivers to gets nothing from any later run
   * on the same day, whatever its users, fetcher, summariser or delivery outcomes.
   */
  lemma OnceADay(s: State, c: Config, users: seq<string>, later: seq<string>, u: string, today: string, now: int, now2: int,
                 fetch: string -> Feed, fetch2: string -> Feed, hasKey: bool,
                 ask: (string, string, string) -> Option<string>, parse: string -> Option<Scqr>,
                 delivered: (string, Digest) -> bool, delivered2: (string, Digest) -> bool)
    requires u in DigestRun(s, c, users, today, now, fetch, hasKey, ask, parse, delivered).0
    ensures var s' := DigestRun(s, c, users, today, now, fetch, hasKey, ask, parse, delivered).1;
      u !in DigestRun(s', c, later, today, now2, fetch2, hasKey, ask, parse, delivered2).0
  {
    SentAreStamped(s, c, users, u, today, now, fetch, hasKey, ask, parse, delivered);
    var s' := DigestRun(s, c, users, today, now, fetch, hasKey, ask, parse, delivered).1;
    StampedNotSent(s', c, later, u, today, now2, fetch2, hasKey, ask, parse, delivered2);
  }

  /**
   * With no users in the state file the fallback chat id is visited, but
   * reading its last-sent date creates a record with no feeds, so nothing is sent.
   */
  lemma FallbackNeverServed(s: State, c: Config, fallback: Option<string>, today: string, now: int,
                            fetch: string -> Feed, hasKey: bool,
                            ask: (string, string, string) -> Option<string>, parse: string -> Option<Scqr>,
                            delivered: (string, Digest) -> bool)
    requires UserState.Valid(s) && s.order == []
    ensures DigestRun(s, c, DigestUsers(s, fallback), today, now, fetch, hasKey, ask, parse, delivered).0 == []
  {
    var users := DigestUsers(s, fallback);
    if users != [] {
      assert users[..0] == [];
      assert users[0] !in s.accounts;
    }
  }

  // ----- the same paths on the store -----

  /** `handle_message` on the store, up to the choice of handler. */
  method HandleMessage(store: Store, uid: string, text: string, now: int) returns (reply: Reply)
    requires store.Valid()
    modifies store
    ensures store.Valid()
    ensures (reply, store.Snapshot()) == Gate(old(store.Snapshot()), old(store.Settings()), uid, text, now)
    ensures store.Settings() == old(store.Settings()) && store.directory == old(store.directory)
  {
    var blocked, reason := store.IsUserBlocked(uid, now);
    if blocked {
      return BlockedNotice(reason);
    }
    var rate := store.CheckRateLimit(uid, "command", now);
    if rate.Denied? {
      return RateLimitNotice(rate.wait);
    }
    var t := Strip(text);
    if !StartsWith(t, "/") {
      return Ignored;
    }
    var (command, args) := ParseCommand(t);
    var h := Route(command);
    if h.None? {
      return UnknownCommand;
    }
    reply := Dispatch(h.value, args);
  }

  /** The loop of `build_digest` that renders the entries one after another. */
  method RenderItems(es: seq<Article>) returns (items: seq<Item>)
    ensures items == ItemsOf(es)
  {
    items := [];
    for i := 0 to |es|
      invariant items == ItemsOf(es[..i])
    {
      assert es[..i + 1][..i] == es[..i];
      items := items + [ItemOf(i + 1, es[i])];
    }
    assert es[..|es|] == es;
  }

  /** `build_digest` on the store, with the batch summariser run in place on the entry list. */
  method BuildDigestFor(store: Store, uid: string, entries: seq<Article>, now: int, hasKey: bool,
                        ask: (string, string, string) -> Option<string>, parse: string -> Option<Scqr>)
    returns (d: Digest)
    requires store.Valid()
    modifies store
    ensures store.Valid()
    ensures (d, store.Snapshot()) == BuildDigest(old(store.Snapshot()), old(store.Settings()), uid, entries, now, hasKey, ask, parse)
    ensures store.Settings() == old(store.Settings()) && store.directory == old(store.directory)
  {
    if entries == [] {
      return NoPosts;
    }
    var limits := store.GetTierLimits(uid, now);
    var shown := entries;
    if limits.aiSummaries && hasKey {
      var slots := new Article[|entries|](i requires 0 <= i < |entries| => entries[i]);
      assert slots[..] == entries;
      GenerateBatch(slots, MaxSummarised, true, ask, parse);
      shown := slots[..];
    }
    var items := RenderItems(shown);
    var a := store.ReadRecord(uid, now);
    d := Posts(|entries|, items, a.sub.tier == "free" && hasKey);
  }

  /** `handle_digest` on the store. */
  method HandleDigest(store: Store, uid: string, now: int, fetch: string -> Feed, hasKey: bool,
                      ask: (string, string, string) -> Option<string>, parse: string -> Option<Scqr>)
    returns (reply: DigestReply)
    requires store.Valid()
    modifies store
    ensures store.Valid()
    ensures (reply, store.Snapshot()) == DigestCommand(old(store.Snapshot()), old(store.Settings()), uid, now, fetch, hasKey, ask, parse)
    ensures store.Settings() == old(store.Settings()) && store.directory == old(store.directory)
  {
    var rate := store.CheckRateLimit(uid, "digest_request", now);
    if rate.Denied? {
      return DigestRateLimited(rate.wait);
    }
    var a := store.ReadRecord(uid, now);
    if a.feeds == [] {
      return NoFeedsYet;
    }
    var entries := FetchEntries(a.feeds, fetch, now - LookbackSeconds);
    var d := BuildDigestFor(store, uid, entries, now, hasKey, ask, parse);
    reply := DigestReady(d);
  }

  /** One user's turn of `run_digest_mode` on the store. */
  method DigestFor(store: Store, uid: string, today: string, now: int, fetch: string -> Feed, hasKey: bool,
                   ask: (string, string, string) -> Option<string>, parse: string -> Option<Scqr>,
                   delivered: (string, Digest) -> bool)
    returns (sent: bool)
    requires store.Valid()
    modifies store
    ensures store.Valid()
    ensures (sent, store.Snapshot()) == DigestStep(old(store.Snapshot()), old(store.Settings()), uid, today, now, fetch, hasKey, ask, parse, delivered)
    ensures store.Settings() == old(store.Settings()) && store.directory == old(store.directory)
  {
    var a := store.ReadRecord(uid, now);
    if a.lastSentDate == Some(today) {
      return false;
    }
    if a.feeds == [] {
      return false;
    }
    var entries := FetchEntries(a.feeds, fetch, now - LookbackSeconds);
    var d := BuildDigestFor(store, uid, entries, now, hasKey, ask, parse);
    if delivered(uid, d) {
      store.SetLastSentDate(uid, today, now);
      return true;
    }
    return false;
  }

  /** The loop of `run_digest_mode`: each of `users` in turn gets its digest step. */
  method DigestAll(store: Store, users: seq<string>, today: string, now: int, fetch: string -> Feed, hasKey: bool,
                   ask: (string, string, string) -> Option<string>, parse: string -> Option<Scqr>,
                   delivered: (string, Digest) -> bool)
    returns (sent: seq<string>)
    requires store.Valid()
    modifies store
    ensures store.Valid()
    ensures (sent, store.Snapshot()) == DigestRun(old(store.Snapshot()), old(store.Settings()), users, today, now, fetch, hasKey, ask, parse, delivered)
    ensures store.Settings() == old(store.Settings()) && store.directory == old(store.directory)
  {
    ghost var s0 := store.Snapshot();
    ghost var c := store.Settings();
    sent := [];
    for i := 0 to |users|
      invariant store.Valid()
      invariant store.Settings() == c && store.directory == old(store.directory)
      invariant (sent, store.Snapshot()) == DigestRun(s0, c, users[..i], today, now, fetch, hasKey, ask, parse, delivered)
    {
      assert users[..i + 1][..i] == users[..i];
      var ok := DigestFor(store, users[i], today, now, fetch, hasKey, ask, parse, delivered);
      if ok {
        sent := sent + [users[i]];
      }
    }
    assert users[..|users|] == users;
  }

  /** `run_digest_mode`: every user in turn, or the fallback chat id when there are none. */
  method RunDigestMode(store: Store, fallback: Option<string>, today: string, now: int, fetch: string -> Feed, hasKey: bool,
                       ask: (string, string, string) -> Option<string>, parse: string -> Option<Scqr>,
                       delivered: (string, Digest) -> bool)
    returns (sent: seq<string>)
    requires store.Valid()
    modifies store
    ensures store.Valid()
    ensures var users := DigestUsers(old(store.Snapshot()), fallback);
      (sent, store.Snapshot()) == DigestRun(old(store.Snapshot()), old(store.Settings()), users, today, now, fetch, hasKey, ask, parse, delivered)
    ensures store.Settings() == old(store.Settings()) && store.directory == old(store.directory)
  {
    var users := if store.order != [] then store.order
                 else if fallback.Some? && fallback.value != [] then [fallback.value]
                 else [];
    assert users == DigestUsers(store.Snapshot(), fallback);
    sent := DigestAll(store, users, today, now, fetch, hasKey, ask, parse, delivered);
  }
}
