# substack_digest in Dafny

A model of substack_digest, a Telegram bot that sends each user a daily digest of the Substack, Medium and Ghost feeds they follow. A paid tier adds AI summaries in the situation, complication, question and resolution ("SCQR") layout and allows more feeds. The model covers these parts:

- **The account and entitlement store** of `manage_feeds.py`:
  - per-user records: feeds, digest time, last-sent date, rate-limit stamps, subscription and block status;
  - the bot configuration, holding the owner and the admin list;
  - the username directory.

  All three are fields of one `FeedStore.Store` class. Its methods change the store in place. Each method is tied to a pure function in `UserState` or `BotConfig` that the properties are proved about.
- **The Stripe webhook** of `stripe_webhook.py`:
  - parsing and checking the `t=…,v1=…` signature header;
  - the four event handlers that drive the subscription ledger;
  - the mapping of outcomes to HTTP status codes.
- **The bot** of `substack_to_telegram.py`:
  - the gating order of an incoming message: block check, then rate limit, then command parse;
  - command tokenising, `escape_html` and the message length cut;
  - building a digest, `/digest`, and the once-a-day digest run;
  - collecting and sorting feed entries.
- **The summariser** of `ai_summarizer.py`:
  - `clean_html`;
  - content truncation;
  - unwrapping a fenced reply;
  - the batch loop that summarises only the first articles.
- **The two maintenance scripts**:
  - `migrate_state.py`, modelled as a pure old-state to new-state function with its chat-id check;
  - `setup_admin.py`, modelled as an imperative load, check and append.

Everything the program gets from outside is a parameter of the model:

| outside input | parameter |
|---|---|
| the clock | `now`, in integer seconds |
| today's date | `today` |
| the URL-shape regular expression | `shape` |
| HMAC-SHA256 with hex encoding | `mac` |
| JSON decoding | `parse` |
| feedparser | `fetch`, returning already-parsed feeds |
| the OpenAI call | `ask` |
| whether Telegram accepted a message | `delivered` |
| the presence of an API key | `hasKey` |

Dictionaries whose order the program depends on carry an explicit insertion order: `UserState.State.order`. The user iteration in `run_digest_mode` and `handle_payment_failed` relies on this order.

Modules, in dependency order:

| module | contents |
|---|---|
| `Wrappers` | Option |
| `Seqs` | duplicate-free sequences and removal |
| `Text` | Python string methods |
| `Accounts` | records, tiers, the rate limiter, expiry |
| `BotConfig` | owner, admins, directory |
| `DigestTime` | the HH:MM check |
| `FeedUrl` | `validate_feed_url` |
| `UserState` | the store as a value |
| `FeedStore` | the store as a class |
| `WebhookSignature` | header parsing and verification |
| `Webhook` | event handlers and HTTP statuses |
| `Summarizer` | `ai_summarizer.py` |
| `Entries` | `fetch_entries_for_user` |
| `BotText` | escaping, message cut, command parsing |
| `Bot` | `substack_to_telegram.py` handlers |
| `ChatId` | the chat-id check |
| `Migrate` | `migrate_state.py` |
| `SetupAdmin` | `setup_admin.py` |

## Model

| member | source | states |
|---|---|---|
| Accounts.TierTableShape | manage_feeds.py:22-35 | "free" and "pro" are tiers and "basic" is not; only pro has AI summaries; free allows fewer feeds than pro |
| Accounts.DefaultAccount | manage_feeds.py:274-296 | a new record has no feeds, tier free, no expiry, is unblocked, has empty rate-limit lists, and is created at `now` |
| Accounts.ParseAction | manage_feeds.py:388-395 | exactly "command", "feed_add" and "digest_request" are rate-limited actions |
| Accounts.Prune | manage_feeds.py:401 | keeps exactly the stamps younger than the window, never more than it was given |
| Accounts.AdmitBounded | manage_feeds.py:397-411 | a call is allowed exactly when fewer stamps than the ceiling survive the window; an allowed call stores at most the ceiling, all inside the window; a denied call stores nothing new |
| Accounts.DeniedWait | manage_feeds.py:403-405 | a denial reports the window minus the age of a surviving stamp: a positive wait, at most the window when no stamp lies in the future |
| Accounts.AdmitKeepsCeiling | manage_feeds.py:401-408 | a stamp list within the ceiling stays within it |
| Accounts.EffectiveTier | manage_feeds.py:430-443 | a lapsed paid tier counts as free, an unknown tier name counts as free, otherwise it is the tier's own row |
| Accounts.ActiveNotLapsed | manage_feeds.py:446-466 | an active subscription is not lapsed and gets its own tier's limits |
| Accounts.ActiveAndLimitsDisagree | manage_feeds.py:433-466 | a pro record expiring exactly now, or with no expiry or an unparseable one, is inactive but still gets pro limits |
| Accounts.Downgraded | manage_feeds.py:505-513 | tier free, no expiry, no subscription id, customer id and creation time kept, feeds cut to the first 3 in order, everything else kept |
| Accounts.DowngradeIdempotent | manage_feeds.py:496-513 | downgrading twice equals downgrading once, and a downgraded record is never lapsed |
| Accounts.Upgraded | manage_feeds.py:483-491 | replaces tier, customer, subscription and expiry, keeps the creation time and every other field |
| Accounts.UpgradeIdempotent | manage_feeds.py:469-493 | repeating an identical upgrade gives the same record, and the result does not depend on the previous subscription |
| BotConfig.SetOwnerId | manage_feeds.py:72-77 | writes the owner only when none is set; the admins are never touched |
| BotConfig.OwnerIsFirstWriter | manage_feeds.py:72-77 | after a first owner is set, a later call changes nothing, and the later caller is owner only if it is the first |
| BotConfig.OwnerMayBeAdmin | manage_feeds.py:72-95 | an id already in the admin list can also become the owner, and is then both |
| BotConfig.HandleKey | manage_feeds.py:202 | a directory key never starts with '@' |
| BotConfig.RegisterUser | manage_feeds.py:196-211 | no username or an empty one changes nothing; otherwise the lower-cased handle maps to the id |
| BotConfig.UserIdByUsername | manage_feeds.py:214-221 | finds a handle if and only if its key is in the directory, and returns that entry's id |
| BotConfig.AtPrefixSameKey | manage_feeds.py:214-221 | "@name" and "name" look up the same entry |
| BotConfig.RegisterThenLookup | manage_feeds.py:196-221 | a registered handle is found again, with or without '@' |
| BotConfig.ResolveIdentifier | manage_feeds.py:103-113 | a bare id is taken as it is; an @handle resolves only through the directory |
| BotConfig.AddAdmin | manage_feeds.py:98-128 | appends an id only if it is neither owner nor admin; an unknown handle, the owner and an existing admin each give their own refusal and change nothing |
| BotConfig.RemoveAdmin | manage_feeds.py:131-156 | fails for a non-admin and otherwise removes every copy of the id, leaving the other admins and the owner alone |
| BotConfig.AddAdminKeepsList | manage_feeds.py:98-128 | a duplicate-free admin list without the owner stays so |
| BotConfig.AddThenRemove | manage_feeds.py:98-156 | removing an admin just added restores the admin list |
| DigestTime.ParseDigestTime | manage_feeds.py:603 | a value is produced if and only if the text matches the H:MM / HH:MM pattern, with hour < 24 and minute < 60 |
| DigestTime.FormatThenParse | manage_feeds.py:603 | every zero-padded time is accepted and parses back to its hour and minute |
| DigestTime.DigestTimeSamples | manage_feeds.py:603 | "08:00" and "8:05" followed by a newline are accepted; "24:00" and "8:60" are refused |
| FeedUrl.Validate | manage_feeds.py:306-343 | after stripping, a URL that fails the shape is a format error, and one containing a blocked pattern is blocked; an accepted URL is the stripped URL normalised: it contains no blocked pattern and has no surrounding space, a Substack URL ends in "/feed", a blog-host URL does not start with "http://", and any other URL is returned as stripped |
| FeedUrl.NormalForm | manage_feeds.py:337-341 | after the two rewrites a Substack URL ends in "/feed", a URL on substack.com, medium.com or ghost.io does not start with "http://", and a URL on none of them is unchanged |
| FeedUrl.SuffixKeepsHost | manage_feeds.py:337-338 | dropping trailing slashes and appending "/feed" keeps any slash-free host name the URL mentions, so the https rewrite still applies |
| FeedUrl.SuffixStepUnblocked | manage_feeds.py:333-338 | adding "/feed" cannot introduce a blocked pattern |
| FeedUrl.HttpsStepUnblocked | manage_feeds.py:333-341 | rewriting to https cannot introduce a blocked pattern |
| FeedUrl.HttpsKeepsHost | manage_feeds.py:340-341 | rewriting to https keeps the blog-host test true |
| FeedUrl.HttpsKeepsFeedEnding | manage_feeds.py:337-341 | rewriting to https keeps the "/feed" ending |
| FeedUrl.NormalisedEdges | manage_feeds.py:308-341 | the normalised URL has no surrounding space |
| FeedUrl.SuffixFixed | manage_feeds.py:337-338 | adding "/feed" to a URL that already ends in it changes nothing |
| FeedUrl.HttpsFixed | manage_feeds.py:340-341 | rewriting a URL that already starts with https changes nothing |
| FeedUrl.ValidateIdempotent | manage_feeds.py:306-343 | re-validating an accepted URL gives the same verdict, provided the shape test accepts the normalised URL |
| FeedUrl.PatternNotInFeed | manage_feeds.py:322-338 | no blocked pattern occurs across the "/feed" seam |
| UserState.Ensure | manage_feeds.py:269-299 | an existing record is kept as is; a missing one is created with the defaults; no other user changes |
| UserState.RateCheck | manage_feeds.py:378-411 | privileged users pass without any state change; an unknown action passes after only creating the record; a denial stores nothing new; otherwise the pruned list plus `now` is stored |
| UserState.RateCheckKeepsRecord | manage_feeds.py:378-411 | a rate check changes only the stamps of the one action |
| UserState.RateCheckKeepsCeilings | manage_feeds.py:388-411 | stamp lists within their ceilings stay within them |
| UserState.TierLimits | manage_feeds.py:424-443 | privileged users get pro limits and no change; otherwise a lapsed paid tier is saved as free and the free row is returned |
| UserState.TierLimitsSettles | manage_feeds.py:424-443 | a second tier lookup at the same time returns the same limits and changes nothing |
| UserState.ActiveFor | manage_feeds.py:446-466 | privileged users are active; otherwise active exactly when the record's subscription is active |
| UserState.Upgrade | manage_feeds.py:469-493 | an unknown tier fails with no change; otherwise only the subscription of that user changes, and its creation time is kept |
| UserState.UpgradeTwice | manage_feeds.py:469-493 | an identical second upgrade changes nothing |
| UserState.Downgrade | manage_feeds.py:496-513 | a no-op for privileged users; otherwise the record is downgraded and no other user changes |
| UserState.DowngradeTwice | manage_feeds.py:496-513 | a second downgrade changes nothing |
| UserState.AddFeedGate | manage_feeds.py:539-551 | the feed_add limit (unprivileged users only) comes first, with the limiter's wait, then URL validation; each failure reports its reason |
| UserState.AddFeedAsWritten | manage_feeds.py:539-572 | the stale-save version: every added URL is an accepted validation result, and a valid state stays valid (its full behaviour is pinned by `AddFeedAsWrittenAgrees`) |
| UserState.AddFeedAsWrittenAgrees | manage_feeds.py:539-572 | the code as written gives the same verdict as the corrected `AddFeed` on every input; on failure the states are equal; on success they differ only in `uid`'s subscription, which the code as written puts back to the one read before `get_tier_limits` ran |
| UserState.StaleAppendAgrees | manage_feeds.py:553-572 | past the gate, the stale write and the corrected write agree on the verdict and on everything but `uid`'s subscription |
| UserState.ResolvedRecord | manage_feeds.py:424-446 | resolving the tier either leaves the state alone or replaces `uid`'s record by its downgrade, with the free limits |
| UserState.Settle | manage_feeds.py:553-557 | the tier lookup leaves an unprivileged user unlapsed and returns the allowance |
| UserState.AppendChecked | manage_feeds.py:559-572 | a full quota is reported before a duplicate; only an added feed changes the list, by appending it at the end |
| UserState.AddFeed | manage_feeds.py:539-572 | rate limit (refused exactly when the limiter refuses, reporting its wait), then validation, then quota, then duplicate; only the normalised accepted URL is ever added |
| UserState.AddFeedAsWrittenRestoresLapsedTier | manage_feeds.py:553-572 | for a lapsed pro user, the code as written saves the paid tier back, while the corrected version keeps it free |
| UserState.AddFeedKeepsNoDup | manage_feeds.py:567-570 | a duplicate-free feed list stays duplicate-free |
| UserState.RemoveFeed | manage_feeds.py:575-594 | a digit argument removes by 1-based position when in range; any other argument removes the first copy of the URL only if listed; the rest of the list keeps its order; the list stays duplicate-free and the removed URL is gone |
| UserState.AddThenRemove | manage_feeds.py:539-594 | removing a (non-numeric) feed just added restores the feed list the tier lookup left |
| UserState.SetDigestTime | manage_feeds.py:601-609 | stores the time if and only if it matches the pattern, and changes nothing otherwise |
| UserState.SetLastSentDate | manage_feeds.py:624-628 | records the date and changes nothing else |
| UserState.Block | manage_feeds.py:357-362 | the user is blocked with the reason, failed attempts kept, nothing else changed |
| UserState.Unblock | manage_feeds.py:365-371 | the security record is reset to the default, nothing else changed |
| UserState.BlockedStatus | manage_feeds.py:346-354 | reports the record's blocked flag, and a reason only when blocked |
| UserState.BlockThenUnblock | manage_feeds.py:357-371 | after blocking then unblocking, the user is unblocked and the rest of the record is as before |
| UserState.ProCount | manage_feeds.py:675 | counts at most the ids it is given |
| UserState.AllStats | manage_feeds.py:668-685 | pro and free users sum to the number of users; the admin count is the list length |
| UserState.ProCountIsSetSize | manage_feeds.py:675 | over a duplicate-free id list, the count of pro records is the size of the set of pro ids |
| UserState.ProUsersCounted | manage_feeds.py:675 | in a valid state, `pro_users` is the number of users whose tier is exactly "pro" |
| UserState.TotalFeedsOneChange | manage_feeds.py:674 | replacing one listed user's record changes the feed total by the difference in that record's feed count |
| UserState.TotalFeedsTouched | manage_feeds.py:674 | an update that touches only `uid` changes `total_feeds` by the change in `uid`'s feed count (a new user counts as zero before) |
| UserState.EnsureKeepsTotalFeeds | manage_feeds.py:674 | creating a missing user leaves `total_feeds` unchanged |
| UserState.AddFeedCountsOne | manage_feeds.py:539-572 | a successful `add_feed` raises `total_feeds` by exactly one |
| UserState.RemoveFeedCountsOne | manage_feeds.py:575-594 | a successful `remove_feed` lowers `total_feeds` by exactly one |
| UserState.ProCountOneChange | manage_feeds.py:675 | changing one record changes the pro count by at most one |
| UserState.EnsureCounts | manage_feeds.py:668-685 | a new user is counted as free |
| UserState.UniqueFeeds | manage_feeds.py:641-647 | exactly the URLs some user follows |
| FeedStore.PruneStamps | manage_feeds.py:401 | the loop keeps exactly what `Prune` keeps |
| FeedStore.WithoutAdmin | manage_feeds.py:151 | the loop keeps exactly what `RemoveAll` keeps |
| FeedStore.Store.constructor | manage_feeds.py:252-260 | an empty state, an empty config and an empty directory |
| FeedStore.Store.EnsureUser | manage_feeds.py:269-299 | the new state is `Ensure` of the old one; the config and the directory are unchanged |
| FeedStore.Store.CheckRateLimit | manage_feeds.py:378-411 | result and new state are those of `RateCheck` |
| FeedStore.Store.DowngradeToFree | manage_feeds.py:496-513 | the new state is `Downgrade` of the old one |
| FeedStore.Store.GetTierLimits | manage_feeds.py:424-443 | result and new state are those of `TierLimits` |
| FeedStore.Store.IsSubscriptionActive | manage_feeds.py:446-466 | result and new state are those of `ActiveFor` |
| FeedStore.Store.UpgradeSubscription | manage_feeds.py:469-493 | result and new state are those of `Upgrade` |
| FeedStore.Store.AddFeed | manage_feeds.py:539-572 | result and new state are those of `UserState.AddFeed` |
| FeedStore.Store.AppendFeed | manage_feeds.py:559-572 | result and new state are those of `AppendChecked` |
| FeedStore.Store.RemoveFeed | manage_feeds.py:575-594 | result and new state are those of `UserState.RemoveFeed` |
| FeedStore.Store.SetDigestTime | manage_feeds.py:601-609 | result and new state are those of `UserState.SetDigestTime` |
| FeedStore.Store.SetLastSentDate | manage_feeds.py:624-628 | the new state is that of `UserState.SetLastSentDate` |
| FeedStore.Store.ReadRecord | manage_feeds.py:533-536 | returns the user's record, creating it if missing |
| FeedStore.Store.BlockUser | manage_feeds.py:357-362 | the new state is `Block` of the old one |
| FeedStore.Store.UnblockUser | manage_feeds.py:365-371 | the new state is `Unblock` of the old one |
| FeedStore.Store.IsUserBlocked | manage_feeds.py:346-354 | results and new state are those of `BlockedStatus` |
| FeedStore.Store.SetOwnerId | manage_feeds.py:72-77 | the new config is `SetOwnerId` of the old one; the records are unchanged |
| FeedStore.Store.AddAdmin | manage_feeds.py:98-128 | result and new config are those of `BotConfig.AddAdmin` |
| FeedStore.Store.RemoveAdmin | manage_feeds.py:131-156 | result and new config are those of `BotConfig.RemoveAdmin` |
| FeedStore.Store.RegisterUser | manage_feeds.py:196-211 | the new directory is `BotConfig.RegisterUser` of the old one |
| WebhookSignature.PairOf | stripe_webhook.py:177 | a header item is a pair if and only if it splits on '=' into exactly two parts |
| WebhookSignature.Pairs | stripe_webhook.py:177 | the header parses if and only if every item is a pair |
| WebhookSignature.MalformedItemSpoilsHeader | stripe_webhook.py:177 | one malformed item makes the whole header unparseable |
| WebhookSignature.ItemSplits | stripe_webhook.py:177 | "k=v" without another '=' is read as the pair (k, v) |
| WebhookSignature.DuplicateKeyLastWins | stripe_webhook.py:177 | when a key repeats, the last value wins |
| WebhookSignature.ParseDigits | stripe_webhook.py:185 | a digit string is read as its decimal value |
| WebhookSignature.ParseIntSignedGrouped | stripe_webhook.py:185 | `int()` accepts a sign and single underscores between digits |
| WebhookSignature.ParseIntRefusesFraction | stripe_webhook.py:185 | "1.5" is not an integer timestamp |
| WebhookSignature.ParseIntRefusesDoubleUnderscore | stripe_webhook.py:185 | "1__0" is not an integer timestamp |
| WebhookSignature.Verify | stripe_webhook.py:169-201 | acceptance needs a set secret, a payload, t and v1 present and non-empty, an integer t within 300 s of now, and v1 equal to the MAC of "t.payload" |
| WebhookSignature.SignedHeaderParses | stripe_webhook.py:177-179 | a header built from t and v1 parses back to exactly those two keys |
| WebhookSignature.ParseNatString | stripe_webhook.py:185 | a written-out timestamp parses back to itself |
| WebhookSignature.VerifyParsed | stripe_webhook.py:181-197 | for a correct MAC, the request is accepted if and only if the skew is at most 300 s in either direction |
| WebhookSignature.SignedRequestWindow | stripe_webhook.py:185-197 | a request signed the way Stripe signs it is accepted exactly within the window, including a skew of exactly 300 s |
| WebhookSignature.EmptyHeaderRejected | stripe_webhook.py:177-182 | an empty header is rejected |
| WebhookSignature.EmptyTimestampRejected | stripe_webhook.py:181-182 | an empty t is rejected |
| WebhookSignature.NonIntegerTimestampRejected | stripe_webhook.py:185 | a non-integer t is rejected |
| WebhookSignature.DoubleEqualsRejected | stripe_webhook.py:177 | an item with two '=' is rejected |
| Webhook.UpdatedExpiry | stripe_webhook.py:261-269 | the period end when present and non-zero, otherwise now plus 30 days |
| Webhook.CheckoutCompleted | stripe_webhook.py:208-244 | succeeds if and only if the user, the subscription and a known tier are present, and then upgrades with a 30-day expiry; on failure nothing changes |
| Webhook.SubscriptionUpdated | stripe_webhook.py:247-279 | no user fails; a status other than active succeeds with no change; active upgrades, with the tier defaulting to "basic" |
| Webhook.SubscriptionDeleted | stripe_webhook.py:282-305 | succeeds if and only if a user id is present, and then downgrades |
| Webhook.FirstPayerFrom | stripe_webhook.py:319-324 | finds the first position from `from` on whose record has the customer id |
| Webhook.PaymentFailedRecipient | stripe_webhook.py:308-335 | the first user, in insertion order, whose customer id matches; the search stops at that first match, so when its id is "" nobody is notified even if a later user also matches |
| Webhook.Process | stripe_webhook.py:338-355 | an unrouted type and a payment failure succeed with no change; a failed handler changes nothing; only the event's user is touched |
| Webhook.Respond | stripe_webhook.py:338-413 | a bad signature gives 400 before parsing; bad JSON gives 400; JSON that is not an object raises, uncaught, in `event.get`; a failed handler gives 500; otherwise 200; anything but 200 leaves the state alone |
| Webhook.CheckoutRedeliveryRenews | stripe_webhook.py:208-244 | a redelivered checkout succeeds again and only moves the expiry to 30 days after the later delivery |
| Webhook.BasicTierRefused | stripe_webhook.py:208-279 | an event naming "basic" fails and changes nothing |
| Webhook.FailedHandlerIs500 | stripe_webhook.py:408-413 | a verified checkout event, decoded as a JSON object, that names the "basic" tier fails in its handler, so it is answered 500 and changes nothing |
| Webhook.MissingCustomerMatchesUnpaid | stripe_webhook.py:319-326 | a payment failure without a customer id is sent to the first user with no customer id |
| Webhook.FindPaymentFailedRecipient | stripe_webhook.py:319-324 | the loop finds exactly `PaymentFailedRecipient` |
| Webhook.HandleCheckoutCompleted | stripe_webhook.py:208-244 | result and new state are those of `CheckoutCompleted` |
| Webhook.HandleSubscriptionUpdated | stripe_webhook.py:247-279 | result and new state are those of `SubscriptionUpdated` |
| Webhook.HandleSubscriptionDeleted | stripe_webhook.py:282-305 | result and new state are those of `SubscriptionDeleted` |
| Webhook.ProcessEvent | stripe_webhook.py:338-355 | result and new state are those of `Process` |
| Webhook.HandleRequest | stripe_webhook.py:425-448 | outcome (a status or an escaping exception) and new state are those of `Respond` |
| Summarizer.StripTags | ai_summarizer.py:208 | no complete tag is left; the result is no longer than the input and uses only its characters |
| Summarizer.UnclosedKept | ai_summarizer.py:208 | text without '>' is left as it is |
| Summarizer.CleanHtml | ai_summarizer.py:205-218 | the result has no surrounding whitespace |
| Summarizer.EscapedTagSurvives | ai_summarizer.py:212-214 | "&lt;b&gt;" comes out as "<b>", because tags are removed before entities are decoded |
| Summarizer.DoubleEscapeDecoded | ai_summarizer.py:212-214 | "&amp;lt;" comes out as "<" |
| Summarizer.CleanWord | ai_summarizer.py:205-218 | a single word without '>' is only entity-decoded and stripped |
| Summarizer.Truncate | ai_summarizer.py:50-51 | longer text becomes its first n characters plus "..."; shorter text is kept |
| Summarizer.ScqrContent | ai_summarizer.py:49-51 | cleaned content is cut at 2000 characters |
| Summarizer.QuickContent | ai_summarizer.py:165-167 | cleaned content is cut at 1500 characters |
| Summarizer.Unfence | ai_summarizer.py:100-102 | a reply without a fence is kept; the result is never longer |
| Summarizer.FencedReplyUnwrapped | ai_summarizer.py:100-102 | a ```json fenced reply gives back its inside |
| Summarizer.ScqrSummary | ai_summarizer.py:28-115 | none without a key; otherwise present exactly when the model answers with JSON holding all four keys |
| Summarizer.QuickSummary | ai_summarizer.py:154-202 | none without a key; otherwise present exactly when the model answers; the result is stripped |
| Summarizer.SliceEnd | ai_summarizer.py:139-148 | where Python's `[:n]` ends, for negative n too |
| Summarizer.Batch | ai_summarizer.py:118-151 | same length; only scqr changes; articles past the slice, or all of them without a key, get none; the first ones get the summariser's answer |
| Summarizer.NoKeyIgnoresSummariser | ai_summarizer.py:132-136 | without a key the result does not depend on the summariser |
| Summarizer.BatchSummariesComplete | ai_summarizer.py:139-145 | every summary the batch attaches holds all four SCQR keys |
| Summarizer.GenerateBatch | ai_summarizer.py:118-151 | the in-place loop leaves the array equal to `Batch` of its old contents |
| Entries.Take | substack_to_telegram.py:153 | a prefix of at most n characters, the whole text when short enough |
| Entries.Select | substack_to_telegram.py:125-155 | an entry yields an article if and only if its date is after `since`; the content is at most 2000 characters and unsummarised |
| Entries.FromFeed | substack_to_telegram.py:125-155 | every article from a feed is after `since` and at most 2000 characters |
| Entries.Collect | substack_to_telegram.py:117-157 | every collected article is after `since` and at most 2000 characters |
| Entries.InsertPermutes | substack_to_telegram.py:160 | inserting adds exactly one copy of the new article and loses none |
| Entries.InsertBounded | substack_to_telegram.py:160 | inserting an article no newer than a bound into a list bounded by it keeps the list bounded |
| Entries.InsertKeepsOrder | substack_to_telegram.py:160 | inserting into a newest-first list keeps it newest first |
| Entries.NewestFirst | substack_to_telegram.py:160 | the result is newest first and a permutation of the input |
| Entries.FetchedEntries | substack_to_telegram.py:110-160 | the returned list is newest first, holds exactly the collected articles, and each is recent, short and unsummarised |
| Entries.CollectComplete | substack_to_telegram.py:120-155 | every entry after `since` in any feed is collected |
| Entries.FeedComplete | substack_to_telegram.py:125-155 | every entry after `since` in a feed is kept |
| Entries.FetchEntries | substack_to_telegram.py:110-160 | the nested loops and sort produce exactly `NewestFirst(Collect(...))` |
| BotText.EscapeEach | substack_to_telegram.py:229-234 | per-character escaping leaves no '<' or '>' and never shortens |
| BotText.EscapeHtml | substack_to_telegram.py:225-234 | empty text gives empty text; the result has no '<' or '>' |
| BotText.EscapeIsPerCharacter | substack_to_telegram.py:229-234 | with '&' replaced first, the chain of replacements equals per-character escaping |
| BotText.SendText | substack_to_telegram.py:72-73 | text over 4000 characters becomes its first 4000 plus the truncation note; shorter text is sent as is |
| BotText.FallbackSummary | substack_to_telegram.py:209-213 | none for empty cleaned text; over 200 characters, the first 197 plus "..."; otherwise the cleaned text |
| BotText.ParseCommand | substack_to_telegram.py:482-484 | the command has no '@'; the arguments start with no whitespace and are no longer than the text |
| BotText.CommandRoundTrip | substack_to_telegram.py:482-484 | a command word, any run of whitespace and args (or the word alone, or with trailing blanks) is read back as the lower-cased word and exactly args |
| BotText.BotSuffixDropped | substack_to_telegram.py:482-484 | "/cmd@bot" followed by whitespace and args, or alone, is read as the lower-cased cmd without the bot's name and exactly args |
| BotText.BareCommand | substack_to_telegram.py:482-484 | a bare command is read as the lower-cased command with "" as arguments |
| BotText.BareBotCommand | substack_to_telegram.py:482-484 | a bare "/cmd@bot" is read as the lower-cased cmd with "" as arguments |
| Bot.Route | substack_to_telegram.py:487-500 | exactly the known commands are routed; "/digest" and "/dailydigest" are the same handler, as are "/start" and "/help" |
| Bot.Gate | substack_to_telegram.py:460-507 | blocked users are answered first, then rate-limited ones with the limiter's wait; plain text is ignored only after the limit; commands are dispatched or reported unknown |
| Bot.BlockedSpendsNoBudget | substack_to_telegram.py:466-476 | a blocked user gets the block notice and spends no command budget |
| Bot.PlainTextSpendsBudget | substack_to_telegram.py:472-479 | plain text from an unprivileged user is ignored but spends one command stamp |
| Bot.AddFeedCommand | substack_to_telegram.py:284-302 | no argument gives usage and no change; otherwise the stripped argument goes to `add_feed` |
| Bot.RemoveFeedCommand | substack_to_telegram.py:305-323 | no argument gives usage and no change; otherwise the stripped argument goes to `remove_feed` |
| Bot.BodyOf | substack_to_telegram.py:199-213 | a non-empty SCQR summary is shown with escaped fields; otherwise the fallback summary |
| Bot.ItemOf | substack_to_telegram.py:190-197 | the item's title and feed name are escaped, with no '<' or '>' |
| Bot.BuildDigest | substack_to_telegram.py:165-222 | no entries gives "no new posts" and no change; otherwise one item per entry, the new state is the one `get_tier_limits` leaves (a lapsed paid tier saved as free), and the upsell is shown exactly when a key is set and the user's tier is free or lapsed (unprivileged), as read after that downgrade |
| Bot.Shown | substack_to_telegram.py:180-188 | the articles listed are as many as the entries |
| Bot.DigestIsEscaped | substack_to_telegram.py:190-213 | items are numbered from 1, titles and feed names hold no '<', fallback summaries are at most 200 characters |
| Bot.OnlyFirstTenSummarised | substack_to_telegram.py:180-188 | an SCQR body appears only within the first ten items, with a key and a tier that allows AI summaries |
| Bot.DigestCommand | substack_to_telegram.py:326-351 | the digest limit is checked first, reporting the limiter's wait; then no feeds is reported; otherwise the last day's entries become the digest |
| Bot.LimitedDigestFetchesNothing | substack_to_telegram.py:329-332 | a rate-limited /digest does not depend on the fetcher |
| Bot.DigestUsers | substack_to_telegram.py:549-557 | all users in insertion order, else at most the fallback chat id |
| Bot.DigestStep | substack_to_telegram.py:562-589 | a user already sent today or without feeds is skipped; otherwise the outcome is the delivery of the digest built from the user's feeds, newest first, over the last 24 hours; today is recorded exactly when delivery succeeds; no other user changes |
| Bot.DigestRun | substack_to_telegram.py:562-589 | only visited users are reported as sent |
| Bot.RunLeavesOthers | substack_to_telegram.py:562-589 | a run over other ids leaves a user's record, or its absence, as it was |
| Bot.RunStamped | substack_to_telegram.py:562-589 | after a run a user is stamped with today if and only if they were before or the run delivered to them |
| Bot.RunServes | substack_to_telegram.py:562-589 | every visited user not yet stamped, with feeds, whose delivery succeeds, is delivered to |
| Bot.StepKeepsStamped | substack_to_telegram.py:564-583 | a user already stamped today stays stamped after any user's turn |
| Bot.RunKeepsStamped | substack_to_telegram.py:564-583 | a user already stamped today stays stamped after a run |
| Bot.SentAreStamped | substack_to_telegram.py:564-583 | everyone a run delivers to is stamped today |
| Bot.StampedNotSent | substack_to_telegram.py:564-583 | no run delivers to a user stamped today |
| Bot.OnceADay | substack_to_telegram.py:564-583 | whoever one run delivers to gets nothing from a later run the same day |
| Bot.FallbackNeverServed | substack_to_telegram.py:549-573 | with no users, the fallback chat id is visited but never sent anything |
| Bot.HandleMessage | substack_to_telegram.py:460-507 | reply and new state are those of `Gate` |
| Bot.RenderItems | substack_to_telegram.py:190-215 | the loop renders exactly `ItemsOf` |
| Bot.BuildDigestFor | substack_to_telegram.py:165-222 | digest and new state are those of `BuildDigest` |
| Bot.HandleDigest | substack_to_telegram.py:326-351 | reply and new state are those of `DigestCommand` |
| Bot.DigestFor | substack_to_telegram.py:562-589 | outcome and new state are those of `DigestStep` |
| Bot.DigestAll | substack_to_telegram.py:562-589 | after the loop over the given users, the users sent to and the new state are those of `DigestRun`; configuration and chat directory unchanged |
| Bot.RunDigestMode | substack_to_telegram.py:544-591 | the users sent to and the new state are those of `DigestRun` over `DigestUsers` |
| ChatId.IsChatId | migrate_state.py:103 | accepted if and only if the text is some dashes followed by a non-empty run of digits |
| ChatId.NumericIdsAccepted | migrate_state.py:103-106 | every decimal id, with or without a leading '-', is accepted |
| ChatId.PlaceholderRejected | migrate_state.py:103 | the template placeholder is not a chat id |
| Migrate.TemplateEntry | migrate_state.py:38-46 | without the placeholder entry, no feeds and "08:00" |
| Migrate.Migrate | migrate_state.py:37-79 | exactly one user, the chat id, on pro with no expiry, no last-sent date, empty limits and unblocked; feeds and time come from its own entry, else the placeholder's, else the defaults |
| Migrate.MigrateTwice | migrate_state.py:48-59 | migrating a migrated state again gives the same state, apart from the creation time |
| Migrate.MigratedStaysPro | migrate_state.py:56-66 | the migrated owner gets pro limits without any state change |
| Migrate.MigrateCommand | migrate_state.py:92-108 | a result exactly when a chat id argument is given and valid; a missing file gives the defaults |
| SetupAdmin.WithAdmin | setup_admin.py:38-41 | the id is in the result; the old list is a prefix; the list is unchanged exactly when the id was in it; duplicate-free lists stay so |
| SetupAdmin.AdminData.constructor | setup_admin.py:31-36 | the stored list, or an empty one when there is no file |
| SetupAdmin.AdminData.AddIfMissing | setup_admin.py:38-41 | appends the id only if missing, and reports whether it did |
| SetupAdmin.Run | setup_admin.py:17-46 | usage without an argument; a non-chat-id is refused; an existing admin leaves the file alone; otherwise the id is appended and written |

## Left out

- File persistence: every `load_*`/`save_*`, the backup in `migrate_state.py`, and the fallback to defaults for a missing or corrupt file are left out. The store lives in memory. A missing file is an `Option` input to the two scripts.
- Network calls are left out: the Telegram transport, `get_updates`, `notify_user`, the Stripe API requests and the OpenAI requests. Their outcomes are the parameters `delivered` and `ask`.
- Third-party parsing is left out: JSON decoding, feedparser, dateutil, `fromisoformat`. Already-parsed values are inputs. Expiry is `Absent`, `Unparseable` or an integer time.
- The clock is an integer `now`. Float timestamps and the `int()` cut of the wait time are integer arithmetic.
- HMAC-SHA256 and its hex encoding are the parameter `mac`. The constant-time compare is equality.
- The URL-shape regular expression of `validate_feed_url` is the predicate parameter `shape`. The blocklist and the normalisation are modelled.
- `lower()` and `isdigit()` are modelled on ASCII: Unicode case mapping and Unicode digits are not. `split()` and `strip()` use Python's full `isspace` set.
- FeedUrl.IsBlocked: the blocklist search under `re.IGNORECASE` (manage_feeds.py:334) is modelled as ASCII lower-casing. Python's case-insensitive matching also folds some non-ASCII letters, so 'ſ' matches 's' and the Kelvin sign matches 'k'. The source blocks "http://localhoſt/", which `IsBlocked` lets through.
- `estimate_api_cost` is left out: floating-point cost arithmetic.
- `run_command_mode` and its polling loop are left out. So are the Flask and Lambda envelopes beyond the status mapping, and concurrency: the store has no locking.
- The message wording of `handle_start`, `handle_feedlist`, `handle_status`, `handle_upgrade` and `handle_manage` is left out. So are the HTML layout and emoji of the digest and the publication-date formatting.
- `list_admins`, `get_username_by_user_id`, `get_all_known_users`, `get_user_stats`, `get_subscription` and the Stripe customer-id getter and setter are left out. They only read or copy fields modelled elsewhere.
- A per-feed exception in `fetch_entries_for_user` skips the rest of that feed. The model's fetcher always returns a feed.
- Entries.NewestFirst: proves the result is newest first and a permutation, but not the stability of Python's sort for equal dates.
- Summarizer.GenerateBatch: the articles are values in an array, so aliasing between the article dicts and other references is not modelled.
- Migrate.MigrateTwice: `created_at` is an integer time, not an ISO string.
- FeedStore.Store.AddFeed: follows the corrected `UserState.AddFeed`, not the code as written. The two give the same verdict and differ only in the subscription stored on success (`UserState.AddFeedAsWrittenAgrees`).
- Bot.AddFeedCommand: passes its argument to the corrected `UserState.AddFeed`, with the same difference from the code as written as `FeedStore.Store.AddFeed`.
- Webhook.Respond: of the type errors a decoded body can raise, only a top-level value that is not an object is modelled (`Raised`). An object whose `data` or `object` field has the wrong type also raises in the source, but the model's decoder yields a well-typed event.
- Bot.RunServes: assumes delivery to the user succeeds whatever the digest. The digest built at the user's turn depends on the state left by the users before them.

## Notes on the code as written

- `setup_admin.py` writes `admins.json`, but `manage_feeds.py` reads admins from `bot_config.json`. The script therefore has no effect on the bot's privileges.
- The tier name "basic" is not in the tier table. Checkout and subscription-update events that name it, or fall back to it, fail. `Webhook.BasicTierRefused` shows this.
- Redelivered checkout events upgrade again and move the expiry: there is no deduplication (`Webhook.CheckoutRedeliveryRenews`).
- A payment-failed event without a customer id is matched against the first user without one (`Webhook.MissingCustomerMatchesUnpaid`).
- At `now == expiry`, `is_subscription_active` is false while `get_tier_limits` still grants pro. The same holds for a pro record with no expiry, such as the migrated owner (`Accounts.ActiveAndLimitsDisagree`, `Migrate.MigratedStaysPro`).
- `clean_html` decodes entities after removing tags, and the fallback summary is not escaped afterwards. So "&lt;b&gt;" in a feed summary reaches Telegram as "<b>" (`Summarizer.EscapedTagSurvives`). Links are not escaped either.
- A signed body that is valid JSON but not an object, such as `[]`, passes `json.loads` and then raises in `event.get("type", "")`. Neither endpoint catches it: Flask answers 500 and the Lambda invocation fails (`Webhook.Respond`).
- When the state has no users, the digest run visits the fallback chat id. Reading its record creates one with no feeds, so nothing is ever sent (`Bot.FallbackNeverServed`).

## Findings

| source | as written | input that shows it | evidently intended | confidence | as-written member | corrected member |
|---|---|---|---|---|---|---|
| manage_feeds.py:553-572 | `add_feed` reads the record, then calls `get_tier_limits`, which saves a lapsed paid tier as free, then saves its own earlier copy of the record with the new feed | an unprivileged user whose pro expiry is before now, with fewer than 3 feeds, rate limit not reached, adds a new valid URL | the lazy downgrade stays in force: the user is free after the call | not executed | UserState.AddFeedAsWrittenRestoresLapsedTier | UserState.AddFeed |
