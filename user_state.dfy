/**
 * The per-user state file of manage_feeds.py as a value: a map from user id
 * to account record, together with the order in which ids were first
 * inserted (Python dicts keep it, and `get_all_users` and the payment-failure
 * lookup iterate in it). Each operation is a function from the old state to
 * its result and the new state; `now` stands for the clock.
 */
module UserState {
  import opened Wrappers
  import opened Text
  import opened Seqs
  import opened Accounts
  import opened FeedUrl
  import opened BotConfig
  import opened DigestTime

  datatype State = State(accounts: map<string, Account>, order: seq<string>)

  /** A missing or unreadable state file. */
  const EmptyState := State(map[], [])

  /** Every id appears once in the order, and the order lists exactly the ids that have a record. */
  ghost predicate Valid(s: State)
  {
    NoDup(s.order) && forall u :: u in s.accounts <==> u in s.order
  }

  /**
   * `r` differs from `s` at most in `uid`'s record, `uid` has a record in
   * `r`, and a new id is appended to the insertion order.
   */
  ghost predicate OnlyTouches(s: State, r: State, uid: string)
  {
    && uid in r.accounts
    && r.order == (if uid in s.accounts then s.order else s.order + [uid])
    && forall u :: u != uid ==> (u in r.accounts <==> u in s.accounts) && (u in s.accounts ==> r.accounts[u] == s.accounts[u])
  }

  lemma OnlyTouchesValid(s: State, r: State, uid: string)
    requires OnlyTouches(s, r, uid)
    ensures Valid(s) ==> Valid(r)
  {
    if Valid(s) && uid !in s.accounts {
      AppendNoDup(s.order, uid);
    }
  }

  /** `ensure_user`: an unseen id gets the default record; a known one is left alone. */
  function Ensure(s: State, uid: string, now: int): (r: State)
    ensures OnlyTouches(s, r, uid)
    ensures r.accounts[uid] == if uid in s.accounts then s.accounts[uid] else DefaultAccount(now)
    ensures uid in s.accounts ==> r == s
    ensures Valid(s) ==> Valid(r)
  {
    var r := if uid in s.accounts then s else State(s.accounts[uid := DefaultAccount(now)], s.order + [uid]);
    OnlyTouchesValid(s, r, uid);
    r
  }

  /** The record `ensure_user` hands back for `uid`. */
  function Record(s: State, uid: string, now: int): Account
  {
    Ensure(s, uid, now).accounts[uid]
  }

  /** `ensure_user` followed by writing `a` as `uid`'s record. */
  function Put(s: State, uid: string, now: int, a: Account): (r: State)
    ensures OnlyTouches(s, r, uid) && r.accounts[uid] == a
    ensures Valid(s) ==> Valid(r)
  {
    var e := Ensure(s, uid, now);
    var r := e.(accounts := e.accounts[uid := a]);
    OnlyTouchesValid(s, r, uid);
    r
  }

  /** The feeds stored for `uid`, or none for an unseen id. */
  function FeedsOf(s: State, uid: string): seq<string>
  {
    if uid in s.accounts then s.accounts[uid].feeds else []
  }

  // ----- Rate limiting -----

  /**
   * `check_rate_limit`. Privileged ids pass and nothing is written. Any other
   * id gets a record; an unknown action passes with nothing else written; a
   * known one is decided on the surviving entries of its own list.
   */
  function RateCheck(s: State, c: Config, uid: string, action: string, now: int): (r: (RateResult, State))
    ensures IsPrivileged(c, uid) ==> r == (Allowed, s)
    ensures !IsPrivileged(c, uid) ==> OnlyTouches(s, r.1, uid)
    ensures !IsPrivileged(c, uid) && ParseAction(action).None? ==> r == (Allowed, Ensure(s, uid, now))
    ensures r.0.Denied? ==> r.1 == Ensure(s, uid, now)
    ensures !IsPrivileged(c, uid) && ParseAction(action).Some? ==>
      var k := ParseAction(action).value;
      var a := Record(s, uid, now);
      var live := Prune(Stamps(a.limits, k), now, Window(k));
      && (r.0.Allowed? <==> |live| < Ceiling(k))
      && (r.0.Denied? ==> r.0.wait == Window(k) - (now - live[0]))
      && (r.0.Allowed? ==> r.1.accounts[uid] == a.(limits := WithStamps(a.limits, k, live + [now])))
    ensures Valid(s) ==> Valid(r.1)
  {
    if IsPrivileged(c, uid) then (Allowed, s)
    else
      var a := Record(s, uid, now);
      match ParseAction(action)
      case None => (Allowed, Ensure(s, uid, now))
      case Some(k) =>
        var verdict := Admit(Stamps(a.limits, k), now, k);
        if verdict.0.Denied? then (verdict.0, Ensure(s, uid, now))
        else (Allowed, Put(s, uid, now, a.(limits := WithStamps(a.limits, k, verdict.1))))
  }

  /** The rate check never changes a user's feeds, subscription, schedule or security flags. */
  lemma RateCheckKeepsRecord(s: State, c: Config, uid: string, action: string, now: int)
    requires !IsPrivileged(c, uid)
    ensures var a := RateCheck(s, c, uid, action, now).1.accounts[uid];
      var b := Record(s, uid, now);
      a.feeds == b.feeds && a.sub == b.sub && a.digestTime == b.digestTime
      && a.lastSentDate == b.lastSentDate && a.security == b.security
  {
  }

  /**
   * Once every stored list of a user is within its ceiling, rate checks keep
   * it so: stored lists never exceed 10, 20 and 5 entries.
   */
  lemma {:induction false} RateCheckKeepsCeilings(s: State, c: Config, uid: string, action: string, now: int)
    requires uid in s.accounts
    requires forall k: RateClass :: |Stamps(s.accounts[uid].limits, k)| <= Ceiling(k)
    ensures var a := RateCheck(s, c, uid, action, now).1.accounts[uid];
      forall k: RateClass :: |Stamps(a.limits, k)| <= Ceiling(k)
  {
    if !IsPrivileged(c, uid) && ParseAction(action).Some? {
      var k := ParseAction(action).value;
      AdmitKeepsCeiling(Stamps(s.accounts[uid].limits, k), now, k);
    }
  }

  // ----- Tier resolution and the subscription ledger -----

  /**
   * `get_tier_limits`. Privileged ids get the Pro row and nothing is written.
   * Otherwise a paid tier whose expiry has passed is downgraded, and the
   * downgrade is written, before the free row is returned; any other record
   * keeps its tier, and a tier name outside the table reads as free.
   */
  function TierLimits(s: State, c: Config, uid: string, now: int): (r: (TierDef, State))
    ensures IsPrivileged(c, uid) ==> r == (ProTier, s)
    ensures !IsPrivileged(c, uid) ==> OnlyTouches(s, r.1, uid) && !Lapsed(r.1.accounts[uid].sub, now)
    ensures !IsPrivileged(c, uid) ==>
      var a := Record(s, uid, now);
      && (Lapsed(a.sub, now) ==> r.0 == FreeTier && r.1.accounts[uid] == Downgraded(a))
      && (!Lapsed(a.sub, now) ==> r.1 == Ensure(s, uid, now))
      && (!Lapsed(a.sub, now) && IsTier(a.sub.tier) ==> Some(r.0) == TierLookup(a.sub.tier))
      && (!IsTier(a.sub.tier) ==> r.0 == FreeTier)
    ensures r.0 == FreeTier || r.0 == ProTier
    ensures Valid(s) ==> Valid(r.1)
  {
    if IsPrivileged(c, uid) then (ProTier, s)
    else
      var a := Record(s, uid, now);
      if Lapsed(a.sub, now) then
        DowngradeIdempotent(a, now);
        (FreeTier, Put(s, uid, now, Downgraded(a)))
      else (TierLookup(a.sub.tier).GetOr(FreeTier), Ensure(s, uid, now))
  }

  /** Tier resolution settles at once: asking again at the same time gives the same limits and writes nothing. */
  lemma TierLimitsSettles(s: State, c: Config, uid: string, now: int)
    ensures var (t, s') := TierLimits(s, c, uid, now);
      TierLimits(s', c, uid, now) == (t, s')
  {
    var (t, s') := TierLimits(s, c, uid, now);
    if !IsPrivileged(c, uid) {
      var a := Record(s, uid, now);
      if Lapsed(a.sub, now) {
        DowngradeIdempotent(a, now);
      }
    }
  }

  /** `is_subscription_active`: true for privileged ids; otherwise the record's own reading, after `ensure_user`. */
  function ActiveFor(s: State, c: Config, uid: string, now: int): (r: (bool, State))
    ensures IsPrivileged(c, uid) ==> r == (true, s)
    ensures !IsPrivileged(c, uid) ==> r.1 == Ensure(s, uid, now)
    ensures !IsPrivileged(c, uid) ==> (r.0 <==> SubscriptionActive(Record(s, uid, now).sub, now))
  {
    if IsPrivileged(c, uid) then (true, s)
    else (SubscriptionActive(Record(s, uid, now).sub, now), Ensure(s, uid, now))
  }

  /**
   * `upgrade_subscription`: a tier outside the table fails and writes
   * nothing, not even a new record; otherwise the subscription is replaced,
   * keeping its creation time.
   */
  function Upgrade(s: State, uid: string, tier: string, customer: Option<string>, subscription: Option<string>, expiry: Expiry, now: int): (r: (bool, State))
    ensures !IsTier(tier) ==> r == (false, s)
    ensures IsTier(tier) ==> r.0 && OnlyTouches(s, r.1, uid)
    ensures IsTier(tier) ==> r.1.accounts[uid].sub == Subscription(tier, customer, subscription, expiry, Record(s, uid, now).sub.createdAt)
    ensures IsTier(tier) ==> r.1.accounts[uid] == Record(s, uid, now).(sub := r.1.accounts[uid].sub)
    ensures Valid(s) ==> Valid(r.1)
  {
    if !IsTier(tier) then (false, s)
    else (true, Put(s, uid, now, Upgraded(Record(s, uid, now), tier, customer, subscription, expiry)))
  }

  /** Delivering the same upgrade twice leaves the state as one delivery did. */
  lemma UpgradeTwice(s: State, uid: string, tier: string, customer: Option<string>, subscription: Option<string>, expiry: Expiry, now: int, later: int)
    ensures var once := Upgrade(s, uid, tier, customer, subscription, expiry, now);
      Upgrade(once.1, uid, tier, customer, subscription, expiry, later) == once
  {
    var once := Upgrade(s, uid, tier, customer, subscription, expiry, now);
    if IsTier(tier) {
      UpgradeIdempotent(Record(s, uid, now), tier, customer, subscription, expiry);
      assert Record(once.1, uid, later) == once.1.accounts[uid];
      assert once.1.(accounts := once.1.accounts[uid := once.1.accounts[uid]]) == once.1;
    }
  }

  /** `downgrade_to_free`: nothing for privileged ids; otherwise the record is downgraded. */
  function Downgrade(s: State, c: Config, uid: string, now: int): (r: State)
    ensures IsPrivileged(c, uid) ==> r == s
    ensures !IsPrivileged(c, uid) ==> OnlyTouches(s, r, uid) && r.accounts[uid] == Downgraded(Record(s, uid, now))
    ensures Valid(s) ==> Valid(r)
  {
    if IsPrivileged(c, uid) then s else Put(s, uid, now, Downgraded(Record(s, uid, now)))
  }

  /** A second downgrade changes nothing. */
  lemma DowngradeTwice(s: State, c: Config, uid: string, now: int, later: int)
    ensures Downgrade(Downgrade(s, c, uid, now), c, uid, later) == Downgrade(s, c, uid, now)
  {
    var once := Downgrade(s, c, uid, now);
    if !IsPrivileged(c, uid) {
      DowngradeIdempotent(Record(s, uid, now), now);
      assert once.(accounts := once.accounts[uid := once.accounts[uid]]) == once;
    }
  }

  // ----- Feed list -----

  datatype AddResult =
    | FeedAdded(url: string)
    | RateLimited(wait: int)
    | UrlRejected(verdict: UrlVerdict)
    | QuotaFull(max: nat, upsell: bool)
    | AlreadyAdded

  /** The feed list `add_feed` checks once the tier has been resolved: the stored one, cut to the free quota by a lazy downgrade. */
  function SettledFeeds(s: State, c: Config, uid: string, now: int): (f: seq<string>)
    ensures f <= FeedsOf(s, uid)
  {
    var a := Record(s, uid, now);
    if !IsPrivileged(c, uid) && Lapsed(a.sub, now) then Downgraded(a).feeds else a.feeds
  }

  /** The limits that apply to `uid`: Pro for privileged ids, otherwise the record's effective tier. */
  function Allowance(s: State, c: Config, uid: string, now: int): (t: TierDef)
    ensures t == FreeTier || t == ProTier
  {
    if IsPrivileged(c, uid) then ProTier else EffectiveTier(Record(s, uid, now).sub, now)
  }

  /** The rate-check and URL steps that open `add_feed`; `Allowed` means the URL normalised to `url` may be added. */
  function AddFeedGate(s: State, c: Config, uid: string, url: string, shape: string -> bool, now: int): (r: (AddResult, State))
    ensures r.0.FeedAdded? ==> Validate(url, shape) == Accepted(r.0.url)
    ensures r.0.FeedAdded? || r.0.RateLimited? || r.0.UrlRejected?
    ensures r.0.RateLimited? ==> !IsPrivileged(c, uid) && r.1 == Ensure(s, uid, now)
    ensures r.0.RateLimited? <==> !IsPrivileged(c, uid) && RateCheck(s, c, uid, "feed_add", now).0.Denied?
    ensures r.0.RateLimited? ==> r.0.wait == RateCheck(s, c, uid, "feed_add", now).0.wait
    ensures r.0.UrlRejected? ==> r.0.verdict == Validate(url, shape) && !r.0.verdict.Accepted?
    ensures IsPrivileged(c, uid) ==> r.1 == s
    ensures !IsPrivileged(c, uid) ==>
      && OnlyTouches(s, r.1, uid)
      && Record(r.1, uid, now).feeds == Record(s, uid, now).feeds
      && Record(r.1, uid, now).sub == Record(s, uid, now).sub
    ensures Valid(s) ==> Valid(r.1)
  {
    var rate := if IsPrivileged(c, uid) then (Allowed, s) else RateCheck(s, c, uid, "feed_add", now);
    if rate.0.Denied? then (RateLimited(rate.0.wait), rate.1)
    else match Validate(url, shape)
      case Accepted(u) => (FeedAdded(u), rate.1)
      case BadFormat => (UrlRejected(BadFormat), rate.1)
      case Blocked => (UrlRejected(Blocked), rate.1)
  }

  /**
   * `add_feed` as the source writes it: the record is read, the tier is
   * resolved (which may write a downgrade), the quota and duplicate checks
   * look at the record read before, and a success writes back that earlier
   * copy with the feed appended.
   */
  function AddFeedAsWritten(s: State, c: Config, uid: string, url: string, shape: string -> bool, now: int): (r: (AddResult, State))
    ensures r.0.FeedAdded? ==> Validate(url, shape) == Accepted(r.0.url)
    ensures Valid(s) ==> Valid(r.1)
  {
    var gate := AddFeedGate(s, c, uid, url, shape, now);
    if !gate.0.FeedAdded? then gate
    else StaleAppend(gate.1, c, uid, gate.0.url, now)
  }

  /** The rest of `add_feed` as written, once the URL `u` has passed the gate. */
  function StaleAppend(g: State, c: Config, uid: string, u: string, now: int): (r: (AddResult, State))
    ensures Valid(g) ==> Valid(r.1)
  {
    var s2 := Ensure(g, uid, now);
    var snapshot := s2.accounts[uid];
    var (limits, s3) := TierLimits(s2, c, uid, now);
    if |snapshot.feeds| >= limits.maxFeeds then
      (QuotaFull(limits.maxFeeds, s3.accounts[uid].sub.tier == "free" && !IsPrivileged(c, uid)), s3)
    else if u in snapshot.feeds then (AlreadyAdded, s3)
    else (FeedAdded(u), Put(s2, uid, now, snapshot.(feeds := snapshot.feeds + [u])))
  }

  lemma OnlyTouchesChain(s: State, g: State, m: State, r: State, uid: string)
    requires g == s || OnlyTouches(s, g, uid)
    requires OnlyTouches(g, m, uid) && OnlyTouches(m, r, uid)
    ensures OnlyTouches(s, r, uid)
  {
  }

  /**
   * The state `add_feed` reaches once its gate has passed: the record is
   * ensured and the tier resolved, so the record holds the settled feed list
   * and is no longer lapsed.
   */
  function Settle(s: State, c: Config, uid: string, now: int): (r: (TierDef, State))
    ensures OnlyTouches(s, r.1, uid)
    ensures r.1.accounts[uid].feeds == SettledFeeds(s, c, uid, now)
    ensures !IsPrivileged(c, uid) ==> !Lapsed(r.1.accounts[uid].sub, now)
    ensures r.0 == Allowance(s, c, uid, now)
    ensures Valid(s) ==> Valid(r.1)
  {
    TierLimits(Ensure(s, uid, now), c, uid, now)
  }

  /** The quota and duplicate checks on a settled record, then the append. */
  function AppendChecked(s: State, uid: string, u: string, max: nat, upsell: bool, now: int): (r: (AddResult, State))
    requires uid in s.accounts
    ensures r.0.FeedAdded? || r.0.QuotaFull? || r.0.AlreadyAdded?
    ensures OnlyTouches(s, r.1, uid) && r.1.order == s.order
    ensures var before := s.accounts[uid].feeds;
      && (r.0.QuotaFull? <==> |before| >= max)
      && (r.0.QuotaFull? ==> r.0 == QuotaFull(max, upsell))
      && (r.0.AlreadyAdded? <==> |before| < max && u in before)
      && (r.0.FeedAdded? ==> r.0.url == u && u !in before && r.1.accounts[uid] == s.accounts[uid].(feeds := before + [u]))
      && (r.0.FeedAdded? ==> (NoDup(before) ==> NoDup(r.1.accounts[uid].feeds)))
    ensures !r.0.FeedAdded? ==> r.1 == s
    ensures Valid(s) ==> Valid(r.1)
  {
    var current := s.accounts[uid];
    if |current.feeds| >= max then (QuotaFull(max, upsell), s)
    else if u in current.feeds then (AlreadyAdded, s)
    else (FeedAdded(u), Put(s, uid, now, current.(feeds := current.feeds + [u])))
  }

  /**
   * `add_feed` with the record read again after tier resolution, so a lazy
   * downgrade is kept: rate limit (unprivileged ids only), URL, quota, then
   * duplicate, and only a success appends the normalised URL.
   */
  function AddFeed(s: State, c: Config, uid: string, url: string, shape: string -> bool, now: int): (r: (AddResult, State))
    ensures r.1 == s || OnlyTouches(s, r.1, uid)
    ensures Valid(s) ==> Valid(r.1)
    ensures r.0.RateLimited? ==> !IsPrivileged(c, uid) && r.1 == Ensure(s, uid, now)
    ensures r.0.RateLimited? <==> !IsPrivileged(c, uid) && RateCheck(s, c, uid, "feed_add", now).0.Denied?
    ensures r.0.RateLimited? ==> r.0.wait == RateCheck(s, c, uid, "feed_add", now).0.wait
    ensures r.0.UrlRejected? ==> r.0.verdict == Validate(url, shape) && !r.0.verdict.Accepted?
    ensures r.0.FeedAdded? ==> Validate(url, shape) == Accepted(r.0.url)
    ensures r.0.FeedAdded? || r.0.QuotaFull? || r.0.AlreadyAdded? ==>
      var before := SettledFeeds(s, c, uid, now);
      && uid in r.1.accounts
      && Validate(url, shape).Accepted?
      && (r.0.QuotaFull? <==> |before| >= Allowance(s, c, uid, now).maxFeeds)
      && (r.0.QuotaFull? ==> r.0.max == Allowance(s, c, uid, now).maxFeeds)
      && (r.0.AlreadyAdded? ==> Validate(url, shape).url in before)
      && (r.0.FeedAdded? ==> r.0.url !in before && r.1.accounts[uid].feeds == before + [r.0.url])
      && (!r.0.FeedAdded? ==> r.1.accounts[uid].feeds == before)
      && (!IsPrivileged(c, uid) ==> !Lapsed(r.1.accounts[uid].sub, now))
  {
    var gate := AddFeedGate(s, c, uid, url, shape, now);
    if !gate.0.FeedAdded? then gate
    else
      var u := gate.0.url;
      assert SettledFeeds(gate.1, c, uid, now) == SettledFeeds(s, c, uid, now);
      assert Allowance(gate.1, c, uid, now) == Allowance(s, c, uid, now);
      var (limits, s3) := Settle(gate.1, c, uid, now);
      var r := AppendChecked(s3, uid, u, limits.maxFeeds, s3.accounts[uid].sub.tier == "free" && !IsPrivileged(c, uid), now);
      OnlyTouchesChain(s, gate.1, s3, r.1, uid);
      r
  }

  /**
   * The stale write: for an unprivileged user whose paid tier has lapsed and
   * who follows fewer feeds than the free quota, a successful `add_feed` as
   * written stores the lapsed paid subscription again, undoing the downgrade
   * it has just written, while the corrected `AddFeed` keeps the downgrade.
   */
  lemma AddFeedAsWrittenRestoresLapsedTier(s: State, c: Config, uid: string, url: string, shape: string -> bool, now: int)
    requires !IsPrivileged(c, uid) && uid in s.accounts
    requires Lapsed(s.accounts[uid].sub, now)
    requires |s.accounts[uid].feeds| < FreeTier.maxFeeds
    requires |Prune(s.accounts[uid].limits.feedAdd, now, Window(FeedAdd))| < Ceiling(FeedAdd)
    requires Validate(url, shape).Accepted? && Validate(url, shape).url !in s.accounts[uid].feeds
    ensures var (res, s') := AddFeedAsWritten(s, c, uid, url, shape, now);
      res.FeedAdded? && Lapsed(s'.accounts[uid].sub, now) && s'.accounts[uid].sub == s.accounts[uid].sub
    ensures var (res, s') := AddFeed(s, c, uid, url, shape, now);
      res.FeedAdded? && !Lapsed(s'.accounts[uid].sub, now) && s'.accounts[uid].sub == Downgraded(s.accounts[uid]).sub
  {
    var a := s.accounts[uid];
    var gate := AddFeedGate(s, c, uid, url, shape, now);
    assert gate.0.FeedAdded?;
    assert gate.1.accounts[uid].sub == a.sub && gate.1.accounts[uid].feeds == a.feeds;
    var (res, s') := AddFeed(s, c, uid, url, shape, now);
    assert SettledFeeds(s, c, uid, now) == a.feeds;
    assert res.FeedAdded?;
  }

  /**
   * Apart from that stale write the two versions agree: the same verdict
   * always (the stale list reaches the free quota exactly when the list cut
   * to it does), the same state on every failure, and on success the same
   * state except that the as-written version stores the subscription read
   * before tier resolution.
   */
  lemma AddFeedAsWrittenAgrees(s: State, c: Config, uid: string, url: string, shape: string -> bool, now: int)
    ensures var (r1, t1) := AddFeedAsWritten(s, c, uid, url, shape, now);
      var (r2, t2) := AddFeed(s, c, uid, url, shape, now);
      && r1 == r2
      && (!r1.FeedAdded? ==> t1 == t2)
      && (r1.FeedAdded? ==> uid in t2.accounts && t1 == t2.(accounts := t2.accounts[uid := t2.accounts[uid].(sub := Record(s, uid, now).sub)]))
  {
    var gate := AddFeedGate(s, c, uid, url, shape, now);
    if gate.0.FeedAdded? {
      assert Record(gate.1, uid, now).sub == Record(s, uid, now).sub;
      StaleAppendAgrees(gate.1, c, uid, gate.0.url, now);
    }
  }

  /** Resolving the tier of a user who has a record changes at most that record, by a downgrade to the free row. */
  lemma ResolvedRecord(s: State, c: Config, uid: string, now: int)
    requires uid in s.accounts
    ensures var (limits, r) := TierLimits(s, c, uid, now);
      && r.order == s.order && r.accounts == s.accounts[uid := r.accounts[uid]]
      && (r.accounts[uid] == s.accounts[uid] || (limits == FreeTier && r.accounts[uid] == Downgraded(s.accounts[uid])))
  {
    assert Record(s, uid, now) == s.accounts[uid];
  }

  lemma StaleAppendAgrees(g: State, c: Config, uid: string, u: string, now: int)
    ensures var (r1, t1) := StaleAppend(g, c, uid, u, now);
      var (limits, s3) := Settle(g, c, uid, now);
      var (r2, t2) := AppendChecked(s3, uid, u, limits.maxFeeds, s3.accounts[uid].sub.tier == "free" && !IsPrivileged(c, uid), now);
      && r1 == r2
      && (!r1.FeedAdded? ==> t1 == t2)
      && (r1.FeedAdded? ==> uid in t2.accounts && t1 == t2.(accounts := t2.accounts[uid := t2.accounts[uid].(sub := Record(g, uid, now).sub)]))
  {
    var s2 := Ensure(g, uid, now);
    var snapshot := s2.accounts[uid];
    assert Record(s2, uid, now) == snapshot;
    var (limits, s3) := TierLimits(s2, c, uid, now);
    var settled := s3.accounts[uid];
    ResolvedRecord(s2, c, uid, now);
    if |snapshot.feeds| < limits.maxFeeds && u !in snapshot.feeds {
      assert settled.feeds == snapshot.feeds;
      StaleWriteDiffersInSub(s2, s3, uid, now, settled, snapshot.feeds + [u]);
    }
  }

  /** Writing the feed list over the record read before and over the resolved one differs only in the subscription. */
  lemma StaleWriteDiffersInSub(s2: State, s3: State, uid: string, now: int, settled: Account, feeds: seq<string>)
    requires uid in s2.accounts && s3.order == s2.order && s3.accounts == s2.accounts[uid := settled]
    requires settled.(sub := s2.accounts[uid].sub) == s2.accounts[uid].(feeds := settled.feeds)
    ensures var t1 := Put(s2, uid, now, s2.accounts[uid].(feeds := feeds));
      var t2 := Put(s3, uid, now, settled.(feeds := feeds));
      uid in t2.accounts && t1 == t2.(accounts := t2.accounts[uid := t2.accounts[uid].(sub := s2.accounts[uid].sub)])
  {
    var a := s2.accounts[uid].(feeds := feeds);
    var b := settled.(feeds := feeds);
    assert b.(sub := s2.accounts[uid].sub) == a;
    assert s2.accounts[uid := b][uid := a] == s2.accounts[uid := a];
  }

  /** Adding a feed keeps a duplicate-free list duplicate-free. */
  lemma AddFeedKeepsNoDup(s: State, c: Config, uid: string, url: string, shape: string -> bool, now: int)
    requires NoDup(FeedsOf(s, uid))
    ensures var r := AddFeed(s, c, uid, url, shape, now).1;
      uid in r.accounts ==> NoDup(r.accounts[uid].feeds)
  {
  }

  datatype RemoveResult = FeedRemoved(url: string) | InvalidIndex | FeedNotFound

  /**
   * `remove_feed`: an all-digit argument is a 1-based position; anything
   * else names a feed, whose first copy goes. Failures write nothing beyond
   * `ensure_user`.
   */
  function RemoveFeed(s: State, uid: string, arg: string, now: int): (r: (RemoveResult, State))
    ensures OnlyTouches(s, r.1, uid)
    ensures !r.0.FeedRemoved? ==> r.1 == Ensure(s, uid, now)
    ensures r.0.FeedRemoved? ==>
      var before := FeedsOf(s, uid);
      && r.0.url in before
      && multiset(r.1.accounts[uid].feeds) == multiset(before) - multiset{r.0.url}
      && r.1.accounts[uid] == Record(s, uid, now).(feeds := r.1.accounts[uid].feeds)
    ensures |arg| > 0 && AllDigits(arg) ==>
      (r.0.FeedRemoved? <==> 1 <= DigitsValue(arg) <= |FeedsOf(s, uid)|)
      && (r.0.FeedRemoved? ==> r.0.url == FeedsOf(s, uid)[DigitsValue(arg) - 1])
    ensures !(|arg| > 0 && AllDigits(arg)) ==> (r.0.FeedRemoved? <==> arg in FeedsOf(s, uid)) && (r.0.FeedRemoved? ==> r.0.url == arg)
    ensures r.0.FeedRemoved? ==>
      var before := FeedsOf(s, uid);
      var i := if |arg| > 0 && AllDigits(arg) then DigitsValue(arg) - 1 else IndexOf(before, arg);
      0 <= i < |before| && r.1.accounts[uid].feeds == RemoveAt(before, i)
    ensures NoDup(FeedsOf(s, uid)) && r.0.FeedRemoved? ==> NoDup(r.1.accounts[uid].feeds) && r.0.url !in r.1.accounts[uid].feeds
    ensures Valid(s) ==> Valid(r.1)
  {
    var a := Record(s, uid, now);
    var f := a.feeds;
    if |arg| > 0 && AllDigits(arg) then
      var idx := DigitsValue(arg) - 1;
      if 0 <= idx < |f| then
        RemoveAtMultiset(f, idx);
        RemoveAtNoDup(f, idx);
        (FeedRemoved(f[idx]), Put(s, uid, now, a.(feeds := RemoveAt(f, idx))))
      else (InvalidIndex, Ensure(s, uid, now))
    else if arg in f then
      RemoveAtNoDup(f, IndexOf(f, arg));
      (FeedRemoved(arg), Put(s, uid, now, a.(feeds := RemoveFirst(f, arg))))
    else (FeedNotFound, Ensure(s, uid, now))
  }

  /** Removing by name the feed just added gives the earlier list back. */
  lemma AddThenRemove(s: State, c: Config, uid: string, url: string, shape: string -> bool, now: int)
    requires AddFeed(s, c, uid, url, shape, now).0.FeedAdded?
    requires var u := AddFeed(s, c, uid, url, shape, now).0.url; !(|u| > 0 && AllDigits(u))
    ensures var (res, s') := AddFeed(s, c, uid, url, shape, now);
      RemoveFeed(s', uid, res.url, now).1.accounts[uid].feeds == SettledFeeds(s, c, uid, now)
  {
    var (res, s') := AddFeed(s, c, uid, url, shape, now);
    RemoveFirstAppended(SettledFeeds(s, c, uid, now), res.url);
  }

  // ----- Schedule, blocking -----

  /** `set_digest_time`: a text that fails the format check is refused before any record is created. */
  function SetDigestTime(s: State, uid: string, t: string, now: int): (r: (bool, State))
    ensures r.0 <==> MatchesDigestTime(t)
    ensures !r.0 ==> r.1 == s
    ensures r.0 ==> OnlyTouches(s, r.1, uid) && r.1.accounts[uid] == Record(s, uid, now).(digestTime := t)
    ensures Valid(s) ==> Valid(r.1)
  {
    if !MatchesDigestTime(t) then (false, s)
    else (true, Put(s, uid, now, Record(s, uid, now).(digestTime := t)))
  }

  /** `set_last_sent_date`. */
  function SetLastSentDate(s: State, uid: string, date: string, now: int): (r: State)
    ensures OnlyTouches(s, r, uid) && r.accounts[uid] == Record(s, uid, now).(lastSentDate := Some(date))
    ensures Valid(s) ==> Valid(r)
  {
    Put(s, uid, now, Record(s, uid, now).(lastSentDate := Some(date)))
  }

  /** `block_user`. */
  function Block(s: State, uid: string, reason: string, now: int): (r: State)
    ensures OnlyTouches(s, r, uid)
    ensures r.accounts[uid].security.blocked && r.accounts[uid].security.blockReason == Some(reason)
    ensures r.accounts[uid].security.failedAttempts == Record(s, uid, now).security.failedAttempts
    ensures r.accounts[uid] == Record(s, uid, now).(security := r.accounts[uid].security)
    ensures Valid(s) ==> Valid(r)
  {
    var a := Record(s, uid, now);
    Put(s, uid, now, a.(security := a.security.(blocked := true, blockReason := Some(reason))))
  }

  /** `unblock_user`: the security record returns to the one a new user gets. */
  function Unblock(s: State, uid: string, now: int): (r: State)
    ensures OnlyTouches(s, r, uid)
    ensures r.accounts[uid].security == DefaultAccount(now).security
    ensures r.accounts[uid] == Record(s, uid, now).(security := r.accounts[uid].security)
    ensures Valid(s) ==> Valid(r)
  {
    var a := Record(s, uid, now);
    Put(s, uid, now, a.(security := Security(false, None, 0)))
  }

  /** `is_user_blocked`: the flag and, when blocked, the stored reason. */
  function BlockedStatus(s: State, uid: string, now: int): (r: (bool, Option<string>, State))
    ensures r.2 == Ensure(s, uid, now)
    ensures r.0 <==> Record(s, uid, now).security.blocked
    ensures !r.0 ==> r.1.None?
  {
    var a := Record(s, uid, now);
    (a.security.blocked, if a.security.blocked then a.security.blockReason else None, Ensure(s, uid, now))
  }

  /** Blocking is reported with its reason; unblocking afterwards clears it and leaves the rest of the record as it was. */
  lemma BlockThenUnblock(s: State, uid: string, reason: string, now: int)
    ensures var b := Block(s, uid, reason, now);
      BlockedStatus(b, uid, now).0 && BlockedStatus(b, uid, now).1 == Some(reason)
    ensures var u := Unblock(Block(s, uid, reason, now), uid, now);
      !BlockedStatus(u, uid, now).0
      && u.accounts[uid] == Record(s, uid, now).(security := Security(false, None, 0))
      && u.order == Ensure(s, uid, now).order
  {
  }

  // ----- Aggregates -----

  /** Feeds stored over the ids in `ids`. */
  function TotalFeeds(accounts: map<string, Account>, ids: seq<string>): nat
  {
    if ids == [] then 0
    else (if ids[0] in accounts then |accounts[ids[0]].feeds| else 0) + TotalFeeds(accounts, ids[1..])
  }

  /** Ids in `ids` whose record has tier "pro". */
  function ProCount(accounts: map<string, Account>, ids: seq<string>): (n: nat)
    ensures n <= |ids|
  {
    if ids == [] then 0
    else (if ids[0] in accounts && accounts[ids[0]].sub.tier == "pro" then 1 else 0) + ProCount(accounts, ids[1..])
  }

  datatype Stats = Stats(totalUsers: nat, totalFeeds: nat, proUsers: nat, freeUsers: int, adminCount: nat)

  /** `get_all_stats`: "free" users are all those not on the "pro" tier. */
  function AllStats(s: State, c: Config): (r: Stats)
    ensures r.proUsers <= r.totalUsers && r.freeUsers >= 0
    ensures r.proUsers + r.freeUsers == r.totalUsers == |s.order|
    ensures r.adminCount == |c.admins|
  {
    var pro := ProCount(s.accounts, s.order);
    Stats(|s.order|, TotalFeeds(s.accounts, s.order), pro, |s.order| - pro, |c.admins|)
  }

  /** Changing one record's tier moves the pro count by at most one, in the direction of the change. */
  lemma {:induction false} ProCountOneChange(accounts: map<string, Account>, ids: seq<string>, uid: string, a: Account)
    requires NoDup(ids) && uid in ids
    ensures var n := ProCount(accounts, ids);
      var m := ProCount(accounts[uid := a], ids);
      var was := uid in accounts && accounts[uid].sub.tier == "pro";
      m == n - (if was then 1 else 0) + (if a.sub.tier == "pro" then 1 else 0)
  {
    if ids[0] == uid {
      ProCountUnaffected(accounts, ids[1..], uid, a);
    } else {
      ProCountOneChange(accounts, ids[1..], uid, a);
    }
  }

  lemma {:induction false} ProCountUnaffected(accounts: map<string, Account>, ids: seq<string>, uid: string, a: Account)
    requires uid !in ids
    ensures ProCount(accounts[uid := a], ids) == ProCount(accounts, ids)
  {
    if ids != [] {
      ProCountUnaffected(accounts, ids[1..], uid, a);
    }
  }

  /** A new user is counted, as free. */
  lemma {:induction false} EnsureCounts(s: State, c: Config, uid: string, now: int)
    requires Valid(s) && uid !in s.accounts
    ensures var r := AllStats(Ensure(s, uid, now), c);
      r.totalUsers == AllStats(s, c).totalUsers + 1 && r.proUsers == AllStats(s, c).proUsers
  {
    ProCountAppend(s.accounts, s.order, uid, DefaultAccount(now));
  }

  lemma {:induction false} ProCountAppend(accounts: map<string, Account>, ids: seq<string>, uid: string, a: Account)
    requires uid !in ids && a.sub.tier != "pro"
    ensures ProCount(accounts[uid := a], ids + [uid]) == ProCount(accounts, ids)
    decreases |ids|
  {
    if ids == [] {
    } else {
      assert (ids + [uid])[1..] == ids[1..] + [uid];
      ProCountAppend(accounts, ids[1..], uid, a);
    }
  }

  /** The users whose record has tier "pro", as a set. */
  function ProIds(accounts: map<string, Account>, ids: seq<string>): set<string>
  {
    set u | u in ids && u in accounts && accounts[u].sub.tier == "pro"
  }

  /** Over ids listed once, the pro count is the number of distinct pro users. */
  lemma {:induction false} ProCountIsSetSize(accounts: map<string, Account>, ids: seq<string>)
    requires NoDup(ids)
    ensures ProCount(accounts, ids) == |ProIds(accounts, ids)|
    decreases |ids|
  {
    if ids == [] {
      assert ProIds(accounts, ids) == {};
    } else {
      var x := ids[0];
      ProCountIsSetSize(accounts, ids[1..]);
      var rest := ProIds(accounts, ids[1..]);
      assert x !in ids[1..];
      if x in accounts && accounts[x].sub.tier == "pro" {
        assert ProIds(accounts, ids) == rest + {x};
      } else {
        assert ProIds(accounts, ids) == rest;
      }
    }
  }

  /** In a well-formed state the "pro_users" statistic counts exactly the records whose tier is "pro". */
  lemma ProUsersCounted(s: State, c: Config)
    requires Valid(s)
    ensures AllStats(s, c).proUsers == |set u | u in s.accounts && s.accounts[u].sub.tier == "pro"|
  {
    ProCountIsSetSize(s.accounts, s.order);
    assert ProIds(s.accounts, s.order) == set u | u in s.accounts && s.accounts[u].sub.tier == "pro";
  }

  /** The feeds a map holds for `uid`, as a count. */
  function FeedCount(accounts: map<string, Account>, uid: string): nat
  {
    if uid in accounts then |accounts[uid].feeds| else 0
  }

  /** Changing one listed record moves the feed total by the change in that record's feed count. */
  lemma {:induction false} TotalFeedsOneChange(accounts: map<string, Account>, ids: seq<string>, uid: string, a: Account)
    requires NoDup(ids) && uid in ids
    ensures TotalFeeds(accounts[uid := a], ids) == TotalFeeds(accounts, ids) - FeedCount(accounts, uid) + |a.feeds|
    decreases |ids|
  {
    if ids[0] == uid {
      TotalFeedsUnaffected(accounts, ids[1..], uid, a);
    } else {
      TotalFeedsOneChange(accounts, ids[1..], uid, a);
    }
  }

  lemma {:induction false} TotalFeedsUnaffected(accounts: map<string, Account>, ids: seq<string>, uid: string, a: Account)
    requires uid !in ids
    ensures TotalFeeds(accounts[uid := a], ids) == TotalFeeds(accounts, ids)
    decreases |ids|
  {
    if ids != [] {
      TotalFeedsUnaffected(accounts, ids[1..], uid, a);
    }
  }

  lemma {:induction false} TotalFeedsAppend(accounts: map<string, Account>, ids: seq<string>, uid: string, a: Account)
    requires uid !in ids
    ensures TotalFeeds(accounts[uid := a], ids + [uid]) == TotalFeeds(accounts, ids) + |a.feeds|
    decreases |ids|
  {
    if ids == [] {
      assert [uid][1..] == [];
    } else {
      assert (ids + [uid])[1..] == ids[1..] + [uid];
      TotalFeedsAppend(accounts, ids[1..], uid, a);
    }
  }

  /** A change confined to one user's record moves the "total_feeds" statistic by that record's change. */
  lemma TotalFeedsTouched(s: State, r: State, c: Config, uid: string)
    requires Valid(s) && OnlyTouches(s, r, uid)
    ensures AllStats(r, c).totalFeeds == AllStats(s, c).totalFeeds - |FeedsOf(s, uid)| + |r.accounts[uid].feeds|
  {
    assert r.accounts == s.accounts[uid := r.accounts[uid]];
    if uid in s.accounts {
      TotalFeedsOneChange(s.accounts, s.order, uid, r.accounts[uid]);
    } else {
      TotalFeedsAppend(s.accounts, s.order, uid, r.accounts[uid]);
    }
  }

  /** Creating a record leaves the feed total alone. */
  lemma EnsureKeepsTotalFeeds(s: State, c: Config, uid: string, now: int)
    requires Valid(s)
    ensures AllStats(Ensure(s, uid, now), c).totalFeeds == AllStats(s, c).totalFeeds
  {
    TotalFeedsTouched(s, Ensure(s, uid, now), c, uid);
  }

  /** A successful `add_feed` raises the feed total by one. */
  lemma AddFeedCountsOne(s: State, c: Config, uid: string, url: string, shape: string -> bool, now: int)
    requires Valid(s) && AddFeed(s, c, uid, url, shape, now).0.FeedAdded?
    ensures AllStats(AddFeed(s, c, uid, url, shape, now).1, c).totalFeeds == AllStats(s, c).totalFeeds + 1
  {
    var r := AddFeed(s, c, uid, url, shape, now).1;
    var before := SettledFeeds(s, c, uid, now);
    assert Record(s, uid, now).feeds == FeedsOf(s, uid);
    assert |before| == |FeedsOf(s, uid)|;
    TotalFeedsTouched(s, r, c, uid);
  }

  /** A successful `remove_feed` lowers the feed total by one. */
  lemma RemoveFeedCountsOne(s: State, c: Config, uid: string, arg: string, now: int)
    requires Valid(s) && RemoveFeed(s, uid, arg, now).0.FeedRemoved?
    ensures AllStats(RemoveFeed(s, uid, arg, now).1, c).totalFeeds == AllStats(s, c).totalFeeds - 1
  {
    var (res, r) := RemoveFeed(s, uid, arg, now);
    var before := FeedsOf(s, uid);
    assert |multiset(r.accounts[uid].feeds)| == |multiset(before)| - 1;
    TotalFeedsTouched(s, r, c, uid);
  }

  /** `get_all_unique_feeds`: every feed that some user follows, once. */
  function UniqueFeeds(s: State): (r: set<string>)
    ensures forall f :: f in r <==> exists u :: u in s.accounts && f in s.accounts[u].feeds
  {
    set u, f | u in s.accounts && f in s.accounts[u].feeds :: f
  }
}
