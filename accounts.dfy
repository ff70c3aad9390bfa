/**
 * The per-user account record of the feed bot and the pure parts of its
 * ledger: the tier table, lazy expiry, the subscription transitions applied
 * to one record, and the sliding-window rate limiter's decision on one
 * timestamp list (manage_feeds.py).
 */
module Accounts {
  import opened Wrappers

  /** One row of the fixed tier table. */
  datatype TierDef = TierDef(maxFeeds: nat, digestFrequency: string, aiSummaries: bool, priceMonthly: nat)

  const FreeTier := TierDef(3, "daily", false, 0)
  const ProTier := TierDef(50, "custom", true, 1)

  /** `TIERS.get(name)`: only "free" and "pro" are tiers. */
  function TierLookup(name: string): Option<TierDef>
  {
    if name == "free" then Some(FreeTier)
    else if name == "pro" then Some(ProTier)
    else None
  }

  predicate IsTier(name: string)
  {
    TierLookup(name).Some?
  }

  /** The table has one free tier without AI summaries and one paid tier with them, and "basic" is not a tier. */
  lemma TierTableShape()
    ensures IsTier("free") && IsTier("pro") && !IsTier("basic")
    ensures forall name :: IsTier(name) ==> (TierLookup(name).value.aiSummaries <==> name == "pro")
    ensures FreeTier.maxFeeds < ProTier.maxFeeds
  {
  }

  /**
   * A stored `expires_at`: missing or empty, a string that `datetime.fromisoformat`
   * rejects (or that cannot be compared with an aware time), or a point in time.
   */
  datatype Expiry = Absent | Unparseable | At(time: int)

  datatype Subscription = Subscription(
    tier: string,
    customerId: Option<string>,
    subscriptionId: Option<string>,
    expiresAt: Expiry,
    createdAt: int)

  /** The three rate-limited action classes and their keys in the record. */
  datatype RateClass = Command | FeedAdd | DigestRequest

  datatype RateLimits = RateLimits(command: seq<int>, feedAdd: seq<int>, digestRequest: seq<int>)

  datatype Security = Security(blocked: bool, blockReason: Option<string>, failedAttempts: nat)

  datatype Account = Account(
    feeds: seq<string>,
    digestTime: string,
    lastSentDate: Option<string>,
    sub: Subscription,
    limits: RateLimits,
    security: Security)

  /** The record `ensure_user` creates for a user it has not seen. */
  function DefaultAccount(now: int): (a: Account)
    ensures a.feeds == [] && a.sub.tier == "free" && a.sub.expiresAt == Absent && !a.security.blocked
    ensures a.limits == RateLimits([], [], []) && a.sub.createdAt == now
  {
    Account([], "08:00", None,
      Subscription("free", None, None, Absent, now),
      RateLimits([], [], []),
      Security(false, None, 0))
  }

  // ----- Rate limiting -----

  /** The action names `check_rate_limit` knows; any other name is not limited. */
  function ParseAction(action: string): (r: Option<RateClass>)
    ensures r.Some? <==> action in {"command", "feed_add", "digest_request"}
  {
    if action == "command" then Some(Command)
    else if action == "feed_add" then Some(FeedAdd)
    else if action == "digest_request" then Some(DigestRequest)
    else None
  }

  function Window(c: RateClass): (w: nat)
    ensures w > 0
  {
    match c
    case Command => 60
    case FeedAdd => 3600
    case DigestRequest => 3600
  }

  function Ceiling(c: RateClass): (n: nat)
    ensures n > 0
  {
    match c
    case Command => 10
    case FeedAdd => 20
    case DigestRequest => 5
  }

  function Stamps(l: RateLimits, c: RateClass): seq<int>
  {
    match c
    case Command => l.command
    case FeedAdd => l.feedAdd
    case DigestRequest => l.digestRequest
  }

  function WithStamps(l: RateLimits, c: RateClass, ts: seq<int>): (r: RateLimits)
    ensures Stamps(r, c) == ts
    ensures forall d :: d != c ==> Stamps(r, d) == Stamps(l, d)
  {
    match c
    case Command => l.(command := ts)
    case FeedAdd => l.(feedAdd := ts)
    case DigestRequest => l.(digestRequest := ts)
  }

  /** The timestamps younger than the window, in their stored order. */
  function Prune(ts: seq<int>, now: int, window: int): (r: seq<int>)
    ensures |r| <= |ts|
    ensures forall i :: 0 <= i < |r| ==> now - r[i] < window
    ensures forall t :: t in r <==> t in ts && now - t < window
  {
    if ts == [] then []
    else (if now - ts[0] < window then [ts[0]] else []) + Prune(ts[1..], now, window)
  }

  /** Pruning a list with one more entry at the end prunes the list and then that entry. */
  lemma {:induction false} PruneSnoc(ts: seq<int>, t: int, now: int, window: int)
    ensures Prune(ts + [t], now, window) == Prune(ts, now, window) + (if now - t < window then [t] else [])
  {
    if ts != [] {
      assert (ts + [t])[1..] == ts[1..] + [t];
      PruneSnoc(ts[1..], t, now, window);
    }
  }

  datatype RateResult = Allowed | Denied(wait: int)

  /**
   * The limiter's verdict on one stored list for an unprivileged user and a
   * known action, and the list to store: an allowed call stores the surviving
   * entries plus `now`; a denied call stores nothing and reports how long
   * until the oldest surviving entry leaves the window.
   */
  function Admit(ts: seq<int>, now: int, c: RateClass): (r: (RateResult, seq<int>))
  {
    var live := Prune(ts, now, Window(c));
    if |live| >= Ceiling(c) then (Denied(Window(c) - (now - live[0])), ts)
    else (Allowed, live + [now])
  }

  /** An allowed call stores at most the ceiling, all inside the window; a denied call stores nothing new. */
  lemma {:induction false} AdmitBounded(ts: seq<int>, now: int, c: RateClass)
    ensures var (res, stored) := Admit(ts, now, c);
      && (res.Allowed? ==> |stored| <= Ceiling(c) && forall i :: 0 <= i < |stored| ==> now - stored[i] < Window(c))
      && (res.Allowed? <==> |Prune(ts, now, Window(c))| < Ceiling(c))
      && (res.Denied? ==> stored == ts)
  {
  }

  /**
   * A denied call's wait is positive, and at most the window when no stored
   * entry lies in the future; it is the time until the first surviving entry
   * leaves the window.
   */
  lemma DeniedWait(ts: seq<int>, now: int, c: RateClass)
    requires Admit(ts, now, c).0.Denied?
    ensures var w := Admit(ts, now, c).0.wait;
      && 0 < w
      && ((forall i :: 0 <= i < |ts| ==> ts[i] <= now) ==> w <= Window(c))
      && exists t :: t in ts && now - t < Window(c) && w == Window(c) - (now - t)
  {
    var live := Prune(ts, now, Window(c));
    assert live[0] in live;
  }

  /**
   * Once stored lists only ever come from `Admit`, a list never grows past
   * the ceiling: a list within the ceiling stays within it.
   */
  lemma AdmitKeepsCeiling(ts: seq<int>, now: int, c: RateClass)
    requires |ts| <= Ceiling(c)
    ensures |Admit(ts, now, c).1| <= Ceiling(c)
  {
  }

  // ----- Tier resolution and lazy expiry -----

  /** A paid tier whose parseable expiry is strictly behind the clock: the state `get_tier_limits` resolves to free. */
  predicate Lapsed(sub: Subscription, now: int)
  {
    sub.tier != "free" && sub.expiresAt.At? && now > sub.expiresAt.time
  }

  /** The limits `get_tier_limits` reports for an unprivileged user. */
  function EffectiveTier(sub: Subscription, now: int): (t: TierDef)
    ensures t == FreeTier || t == ProTier
    ensures Lapsed(sub, now) ==> t == FreeTier
    ensures !Lapsed(sub, now) && IsTier(sub.tier) ==> Some(t) == TierLookup(sub.tier)
    ensures !IsTier(sub.tier) ==> t == FreeTier
  {
    if Lapsed(sub, now) then FreeTier else TierLookup(sub.tier).GetOr(FreeTier)
  }

  /** `is_subscription_active` for an unprivileged user. */
  function SubscriptionActive(sub: Subscription, now: int): bool
  {
    if sub.tier == "free" then true
    else match sub.expiresAt
      case Absent => false
      case Unparseable => false
      case At(t) => now < t
  }

  /** An active subscription is never lapsed, so it always gets its own tier's limits. */
  lemma ActiveNotLapsed(sub: Subscription, now: int)
    requires SubscriptionActive(sub, now)
    ensures !Lapsed(sub, now)
    ensures IsTier(sub.tier) ==> Some(EffectiveTier(sub, now)) == TierLookup(sub.tier)
  {
  }

  /**
   * The two readings disagree: at the instant of expiry, and for a paid tier
   * whose expiry is missing or unparseable, the subscription counts as
   * inactive while its paid limits still apply.
   */
  lemma ActiveAndLimitsDisagree(sub: Subscription, now: int)
    requires sub.tier == "pro"
    requires sub.expiresAt == At(now) || sub.expiresAt == Absent || sub.expiresAt == Unparseable
    ensures !SubscriptionActive(sub, now) && EffectiveTier(sub, now) == ProTier
  {
  }

  // ----- Subscription ledger on one record -----

  /**
   * `downgrade_to_free` on a stored record: free tier, no expiry, no
   * subscription, the same customer and creation time, and the earliest
   * free-quota feeds kept in their order.
   */
  function Downgraded(a: Account): (r: Account)
    ensures r.sub.tier == "free" && r.sub.expiresAt == Absent && r.sub.subscriptionId == None
    ensures r.sub.customerId == a.sub.customerId && r.sub.createdAt == a.sub.createdAt
    ensures r.feeds <= a.feeds
    ensures |r.feeds| == if |a.feeds| > FreeTier.maxFeeds then FreeTier.maxFeeds else |a.feeds|
    ensures r.digestTime == a.digestTime && r.lastSentDate == a.lastSentDate
    ensures r.limits == a.limits && r.security == a.security
  {
    a.(feeds := if |a.feeds| > FreeTier.maxFeeds then a.feeds[..FreeTier.maxFeeds] else a.feeds,
       sub := a.sub.(tier := "free", expiresAt := Absent, subscriptionId := None))
  }

  /** A second downgrade changes nothing, and a downgraded record is never lapsed. */
  lemma DowngradeIdempotent(a: Account, now: int)
    ensures Downgraded(Downgraded(a)) == Downgraded(a)
    ensures !Lapsed(Downgraded(a).sub, now) && EffectiveTier(Downgraded(a).sub, now) == FreeTier
  {
  }

  /**
   * `upgrade_subscription` on a stored record: the subscription is replaced
   * wholesale, keeping only the creation time; feeds and everything else stay.
   */
  function Upgraded(a: Account, tier: string, customer: Option<string>, subscription: Option<string>, expiry: Expiry): (r: Account)
    ensures r.sub == Subscription(tier, customer, subscription, expiry, a.sub.createdAt)
    ensures r == a.(sub := r.sub)
  {
    a.(sub := Subscription(tier, customer, subscription, expiry, a.sub.createdAt))
  }

  /**
   * Repeating an identical upgrade yields the same record, and the result does
   * not depend on the previous subscription beyond its creation time: an
   * upgrade carrying an earlier expiry shortens the entitlement.
   */
  lemma UpgradeIdempotent(a: Account, tier: string, customer: Option<string>, subscription: Option<string>, expiry: Expiry)
    ensures var once := Upgraded(a, tier, customer, subscription, expiry);
      Upgraded(once, tier, customer, subscription, expiry) == once
    ensures forall b: Account :: b.sub.createdAt == a.sub.createdAt && b == a.(sub := b.sub) ==>
      Upgraded(b, tier, customer, subscription, expiry) == Upgraded(a, tier, customer, subscription, expiry)
  {
  }
}
