/**
 * The store of manage_feeds.py as one object: the user-state file, the bot
 * configuration and the username directory become fields, and each entry
 * point loads, changes and saves them in place. Every method is tied to the
 * function in UserState or BotConfig that states its outcome.
 */
module FeedStore {
  import opened Wrappers
  import opened Text
  import opened Seqs
  import opened Accounts
  import opened FeedUrl
  import opened BotConfig
  import opened DigestTime
  import opened UserState

  /** `[ts for ts in timestamps if now - ts < window]`. */
  method PruneStamps(ts: seq<int>, now: int, window: int) returns (live: seq<int>)
    ensures live == Prune(ts, now, window)
  {
    live := [];
    var i := 0;
    while i < |ts|
      invariant 0 <= i <= |ts|
      invariant live == Prune(ts[..i], now, window)
    {
      PruneSnoc(ts[..i], ts[i], now, window);
      assert ts[..i + 1] == ts[..i] + [ts[i]];
      if now - ts[i] < window {
        live := live + [ts[i]];
      }
      i := i + 1;
    }
    assert ts[..i] == ts;
  }

  /** `[a for a in admins if str(a) != user_id]`. */
  method WithoutAdmin(admins: seq<string>, uid: string) returns (kept: seq<string>)
    ensures kept == RemoveAll(admins, uid)
  {
    kept := [];
    var i := 0;
    while i < |admins|
      invariant 0 <= i <= |admins|
      invariant kept == RemoveAll(admins[..i], uid)
    {
      RemoveAllSnoc(admins[..i], admins[i], uid);
      assert admins[..i + 1] == admins[..i] + [admins[i]];
      if admins[i] != uid {
        kept := kept + [admins[i]];
      }
      i := i + 1;
    }
    assert admins[..i] == admins;
  }

  class Store {
    var accounts: map<string, Account>
    var order: seq<string>
    var owner: Option<string>
    var admins: seq<string>
    var directory: Directory

    /** The user-state file's contents. */
    function Snapshot(): State
      reads this
    {
      State(accounts, order)
    }

    /** The configuration file's contents. */
    function Settings(): Config
      reads this
    {
      Config(owner, admins)
    }

    ghost predicate Valid()
      reads this
    {
      UserState.Valid(Snapshot())
    }

    /** All three files missing. */
    constructor ()
      ensures Snapshot() == EmptyState && Settings() == EmptyConfig && directory == map[]
      ensures Valid()
    {
      accounts := map[];
      order := [];
      owner := None;
      admins := [];
      directory := map[];
    }

    method EnsureUser(uid: string, now: int)
      requires Valid()
      modifies this
      ensures Valid()
      ensures Snapshot() == Ensure(old(Snapshot()), uid, now)
      ensures Settings() == old(Settings()) && directory == old(directory)
    {
      if uid !in accounts {
        accounts := accounts[uid := DefaultAccount(now)];
        order := order + [uid];
      }
    }

    method CheckRateLimit(uid: string, action: string, now: int) returns (res: RateResult)
      requires Valid()
      modifies this
      ensures Valid()
      ensures (res, Snapshot()) == RateCheck(old(Snapshot()), old(Settings()), uid, action, now)
      ensures Settings() == old(Settings()) && directory == old(directory)
    {
      if IsPrivileged(Settings(), uid) {
        return Allowed;
      }
      EnsureUser(uid, now);
      var a := accounts[uid];
      var k;
      match ParseAction(action) {
        case None =>
          return Allowed;
        case Some(c) =>
          k := c;
      }
      var live := PruneStamps(Stamps(a.limits, k), now, Window(k));
      if |live| >= Ceiling(k) {
        return Denied(Window(k) - (now - live[0]));
      }
      accounts := accounts[uid := a.(limits := WithStamps(a.limits, k, live + [now]))];
      res := Allowed;
    }

    method DowngradeToFree(uid: string, now: int)
      requires Valid()
      modifies this
      ensures Valid()
      ensures Snapshot() == Downgrade(old(Snapshot()), old(Settings()), uid, now)
      ensures Settings() == old(Settings()) && directory == old(directory)
    {
      if IsPrivileged(Settings(), uid) {
        return;
      }
      EnsureUser(uid, now);
      var a := accounts[uid];
      var sub := a.sub.(tier := "free", expiresAt := Absent, subscriptionId := None);
      accounts := accounts[uid := a.(sub := sub)];
      if |a.feeds| > FreeTier.maxFeeds {
        accounts := accounts[uid := a.(sub := sub, feeds := a.feeds[..FreeTier.maxFeeds])];
      }
    }

    method GetTierLimits(uid: string, now: int) returns (limits: TierDef)
      requires Valid()
      modifies this
      ensures Valid()
      ensures (limits, Snapshot()) == TierLimits(old(Snapshot()), old(Settings()), uid, now)
      ensures Settings() == old(Settings()) && directory == old(directory)
    {
      if IsPrivileged(Settings(), uid) {
        return ProTier;
      }
      EnsureUser(uid, now);
      var sub := accounts[uid].sub;
      var tier := sub.tier;
      if sub.expiresAt.At? && tier != "free" && now > sub.expiresAt.time {
        DowngradeToFree(uid, now);
        tier := "free";
      }
      limits := TierLookup(tier).GetOr(FreeTier);
    }

    method IsSubscriptionActive(uid: string, now: int) returns (active: bool)
      requires Valid()
      modifies this
      ensures Valid()
      ensures (active, Snapshot()) == ActiveFor(old(Snapshot()), old(Settings()), uid, now)
      ensures Settings() == old(Settings()) && directory == old(directory)
    {
      if IsPrivileged(Settings(), uid) {
        return true;
      }
      EnsureUser(uid, now);
      var sub := accounts[uid].sub;
      if sub.tier == "free" {
        return true;
      }
      match sub.expiresAt {
        case Absent => active := false;
        case Unparseable => active := false;
        case At(t) => active := now < t;
      }
    }

    method UpgradeSubscription(uid: string, tier: string, customer: Option<string>, subscription: Option<string>, expiry: Expiry, now: int)
      returns (ok: bool)
      requires Valid()
      modifies this
      ensures Valid()
      ensures (ok, Snapshot()) == Upgrade(old(Snapshot()), uid, tier, customer, subscription, expiry, now)
      ensures Settings() == old(Settings()) && directory == old(directory)
    {
      if !IsTier(tier) {
        return false;
      }
      EnsureUser(uid, now);
      var a := accounts[uid];
      accounts := accounts[uid := a.(sub := Subscription(tier, customer, subscription, expiry, a.sub.createdAt))];
      ok := true;
    }

    /** `add_feed`, reading the record again after the tier has been resolved. */
    method AddFeed(uid: string, url: string, shape: string -> bool, now: int) returns (res: AddResult)
      requires Valid()
      modifies this
      ensures Valid()
      ensures (res, Snapshot()) == UserState.AddFeed(old(Snapshot()), old(Settings()), uid, url, shape, now)
      ensures Settings() == old(Settings()) && directory == old(directory)
    {
      ghost var gate := AddFeedGate(Snapshot(), Settings(), uid, url, shape, now);
      if !IsPrivileged(Settings(), uid) {
        var rate := CheckRateLimit(uid, "feed_add", now);
        if rate.Denied? {
          return RateLimited(rate.wait);
        }
      }
      var verdict := Validate(url, shape);
      if !verdict.Accepted? {
        return UrlRejected(verdict);
      }
      assert gate == (FeedAdded(verdict.url), Snapshot());
      EnsureUser(uid, now);
      var limits := GetTierLimits(uid, now);
      assert (limits, Snapshot()) == Settle(gate.1, Settings(), uid, now);
      res := AppendFeed(uid, verdict.url, limits.maxFeeds, accounts[uid].sub.tier == "free" && !IsPrivileged(Settings(), uid), now);
    }

    /** The quota and duplicate checks of `add_feed` on the settled record, then the append. */
    method AppendFeed(uid: string, u: string, max: nat, upsell: bool, now: int) returns (res: AddResult)
      requires Valid() && uid in accounts
      modifies this
      ensures Valid()
      ensures (res, Snapshot()) == AppendChecked(old(Snapshot()), uid, u, max, upsell, now)
      ensures Settings() == old(Settings()) && directory == old(directory)
    {
      var current := accounts[uid];
      if |current.feeds| >= max {
        return QuotaFull(max, upsell);
      }
      if u in current.feeds {
        return AlreadyAdded;
      }
      accounts := accounts[uid := current.(feeds := current.feeds + [u])];
      res := FeedAdded(u);
    }

    method RemoveFeed(uid: string, arg: string, now: int) returns (res: RemoveResult)
      requires Valid()
      modifies this
      ensures Valid()
      ensures (res, Snapshot()) == UserState.RemoveFeed(old(Snapshot()), uid, arg, now)
      ensures Settings() == old(Settings()) && directory == old(directory)
    {
      EnsureUser(uid, now);
      var a := accounts[uid];
      var feeds := a.feeds;
      if |arg| > 0 && AllDigits(arg) {
        var idx := DigitsValue(arg) - 1;
        if 0 <= idx < |feeds| {
          var removed := feeds[idx];
          accounts := accounts[uid := a.(feeds := RemoveAt(feeds, idx))];
          return FeedRemoved(removed);
        }
        return InvalidIndex;
      }
      if arg in feeds {
        accounts := accounts[uid := a.(feeds := RemoveFirst(feeds, arg))];
        return FeedRemoved(arg);
      }
      res := FeedNotFound;
    }

    method SetDigestTime(uid: string, t: string, now: int) returns (ok: bool)
      requires Valid()
      modifies this
      ensures Valid()
      ensures (ok, Snapshot()) == UserState.SetDigestTime(old(Snapshot()), uid, t, now)
      ensures Settings() == old(Settings()) && directory == old(directory)
    {
      if !MatchesDigestTime(t) {
        return false;
      }
      EnsureUser(uid, now);
      accounts := accounts[uid := accounts[uid].(digestTime := t)];
      ok := true;
    }

    method SetLastSentDate(uid: string, date: string, now: int)
      requires Valid()
      modifies this
      ensures Valid()
      ensures Snapshot() == UserState.SetLastSentDate(old(Snapshot()), uid, date, now)
      ensures Settings() == old(Settings()) && directory == old(directory)
    {
      EnsureUser(uid, now);
      accounts := accounts[uid := accounts[uid].(lastSentDate := Some(date))];
    }

    /** `list_feeds`, `get_digest_time` and `get_last_sent_date`: reads that still create the record. */
    method ReadRecord(uid: string, now: int) returns (a: Account)
      requires Valid()
      modifies this
      ensures Valid()
      ensures Snapshot() == Ensure(old(Snapshot()), uid, now) && a == Record(old(Snapshot()), uid, now)
      ensures Settings() == old(Settings()) && directory == old(directory)
    {
      EnsureUser(uid, now);
      a := accounts[uid];
    }

    method BlockUser(uid: string, reason: string, now: int)
      requires Valid()
      modifies this
      ensures Valid()
      ensures Snapshot() == Block(old(Snapshot()), uid, reason, now)
      ensures Settings() == old(Settings()) && directory == old(directory)
    {
      EnsureUser(uid, now);
      var a := accounts[uid];
      accounts := accounts[uid := a.(security := a.security.(blocked := true, blockReason := Some(reason)))];
    }

    method UnblockUser(uid: string, now: int)
      requires Valid()
      modifies this
      ensures Valid()
      ensures Snapshot() == Unblock(old(Snapshot()), uid, now)
      ensures Settings() == old(Settings()) && directory == old(directory)
    {
      EnsureUser(uid, now);
      var a := accounts[uid];
      accounts := accounts[uid := a.(security := a.security.(blocked := false, blockReason := None, failedAttempts := 0))];
    }

    method IsUserBlocked(uid: string, now: int) returns (blocked: bool, reason: Option<string>)
      requires Valid()
      modifies this
      ensures Valid()
      ensures (blocked, reason, Snapshot()) == BlockedStatus(old(Snapshot()), uid, now)
      ensures Settings() == old(Settings()) && directory == old(directory)
    {
      EnsureUser(uid, now);
      var security := accounts[uid].security;
      if security.blocked {
        return true, security.blockReason;
      }
      return false, None;
    }

    method SetOwnerId(uid: string)
      modifies this
      ensures Settings() == BotConfig.SetOwnerId(old(Settings()), uid)
      ensures Snapshot() == old(Snapshot()) && directory == old(directory)
    {
      if owner.None? || owner.value == "" {
        owner := Some(uid);
      }
    }

    method AddAdmin(identifier: string) returns (res: AdminResult)
      modifies this
      ensures (res, Settings()) == BotConfig.AddAdmin(old(Settings()), old(directory), identifier)
      ensures Snapshot() == old(Snapshot()) && directory == old(directory)
    {
      var uid;
      match ResolveIdentifier(directory, identifier) {
        case None =>
          return HandleNotFound;
        case Some(id) =>
          uid := id;
      }
      if IsOwner(Settings(), uid) {
        return OwnerRefused;
      }
      if uid in admins {
        return AlreadyAdmin(uid);
      }
      admins := admins + [uid];
      res := Added(uid);
    }

    method RemoveAdmin(identifier: string) returns (res: AdminResult)
      modifies this
      ensures (res, Settings()) == BotConfig.RemoveAdmin(old(Settings()), old(directory), identifier)
      ensures Snapshot() == old(Snapshot()) && directory == old(directory)
    {
      var uid;
      match ResolveIdentifier(directory, identifier) {
        case None =>
          return HandleNotFound;
        case Some(id) =>
          uid := id;
      }
      if uid !in admins {
        return NotAdmin(uid);
      }
      admins := WithoutAdmin(admins, uid);
      res := Removed(uid);
    }

    method RegisterUser(uid: string, username: Option<string>, firstName: Option<string>, now: int)
      modifies this
      ensures directory == BotConfig.RegisterUser(old(directory), uid, username, firstName, now)
      ensures Snapshot() == old(Snapshot()) && Settings() == old(Settings())
    {
      if username.None? || username.value == "" {
        return;
      }
      directory := directory[HandleKey(username.value) := Handle(uid, username.value, firstName, now)];
    }
  }
}
