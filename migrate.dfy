/**
 * migrate_state.py: the one-off rewrite of an old per-user state file into
 * the record layout manage_feeds.py uses. The new file holds one record, for
 * the operator's own chat id, on the Pro tier without expiry; its feeds and
 * digest time are taken over from that id's old entry, else from the
 * template's "YOUR_CHAT_ID_HERE" entry, else the defaults. Reading, backing
 * up and writing the files are left out; the clock is `now`.
 */
module Migrate {
  import opened Wrappers
  import opened Accounts
  import opened BotConfig
  import opened UserState
  import opened ChatId

  /** An entry of the old file, reduced to the two keys the migration reads; `None` is a missing key. */
  datatype OldEntry = OldEntry(feeds: Option<seq<string>>, digestTime: Option<string>)

  type OldState = map<string, OldEntry>

  /** The key the old template stored its single user under. */
  const Placeholder := "YOUR_CHAT_ID_HERE"

  const DefaultDigestTime := "08:00"

  /** What the template entry contributes: its values, or the defaults for the keys it lacks. */
  function TemplateEntry(prev: OldState): (e: (seq<string>, string))
    ensures Placeholder !in prev ==> e == ([], DefaultDigestTime)
  {
    var p := if Placeholder in prev then prev[Placeholder] else OldEntry(None, None);
    (p.feeds.GetOr([]), p.digestTime.GetOr(DefaultDigestTime))
  }

  /**
   * `migrate`: the new state has exactly one record, `chatId`'s, and every
   * other user is dropped. Each of feeds and digest time comes from the
   * chat id's own entry when it has that key, else from the template entry
   * when it has it, else from the default. The record is Pro without expiry
   * or subscription ids, never sent, with empty rate-limit lists, unblocked.
   */
  function Migrate(prev: OldState, chatId: string, now: int): (r: State)
    ensures Valid(r)
    ensures r.order == [chatId] && r.accounts.Keys == {chatId}
    ensures var a := r.accounts[chatId];
      && a.lastSentDate == None
      && a.sub == Subscription("pro", None, None, Absent, now)
      && a.limits == RateLimits([], [], [])
      && a.security == Security(false, None, 0)
    ensures chatId in prev && prev[chatId].feeds.Some? ==> r.accounts[chatId].feeds == prev[chatId].feeds.value
    ensures chatId in prev && prev[chatId].digestTime.Some? ==> r.accounts[chatId].digestTime == prev[chatId].digestTime.value
    ensures (chatId !in prev || prev[chatId].feeds.None?) && Placeholder in prev && prev[Placeholder].feeds.Some? ==>
      r.accounts[chatId].feeds == prev[Placeholder].feeds.value
    ensures (chatId !in prev || prev[chatId].digestTime.None?) && Placeholder in prev && prev[Placeholder].digestTime.Some? ==>
      r.accounts[chatId].digestTime == prev[Placeholder].digestTime.value
    ensures (chatId !in prev || prev[chatId].feeds.None?) && (Placeholder !in prev || prev[Placeholder].feeds.None?) ==>
      r.accounts[chatId].feeds == []
    ensures (chatId !in prev || prev[chatId].digestTime.None?) && (Placeholder !in prev || prev[Placeholder].digestTime.None?) ==>
      r.accounts[chatId].digestTime == DefaultDigestTime
  {
    var (feeds0, time0) := TemplateEntry(prev);
    var own := if chatId in prev then prev[chatId] else OldEntry(None, None);
    var record := Account(own.feeds.GetOr(feeds0), own.digestTime.GetOr(time0), None,
      Subscription("pro", None, None, Absent, now),
      RateLimits([], [], []),
      Security(false, None, 0));
    State(map[chatId := record], [chatId])
  }

  /** How the migration reads a state file in the new layout: every record still has both keys. */
  function AsOld(s: State): (prev: OldState)
    ensures prev.Keys == s.accounts.Keys
    ensures forall u :: u in prev ==> prev[u] == OldEntry(Some(s.accounts[u].feeds), Some(s.accounts[u].digestTime))
  {
    map u | u in s.accounts :: OldEntry(Some(s.accounts[u].feeds), Some(s.accounts[u].digestTime))
  }

  /** Migrating a second time keeps the feeds and the digest time; only the creation time is renewed. */
  lemma MigrateTwice(prev: OldState, chatId: string, now: int, later: int)
    ensures Migrate(AsOld(Migrate(prev, chatId, now)), chatId, later) == Migrate(prev, chatId, later)
  {
    var r := Migrate(prev, chatId, now);
    var again := Migrate(AsOld(r), chatId, later);
    assert again.accounts[chatId] == Migrate(prev, chatId, later).accounts[chatId];
    assert again.accounts == Migrate(prev, chatId, later).accounts;
  }

  /**
   * The migrated user keeps the Pro limits at any later time whether or not
   * they are configured as owner, because a Pro record without expiry never
   * lapses; and reading the limits writes nothing.
   */
  lemma MigratedStaysPro(prev: OldState, chatId: string, now: int, c: Config, later: int)
    ensures TierLimits(Migrate(prev, chatId, now), c, chatId, later) == (ProTier, Migrate(prev, chatId, now))
  {
    var r := Migrate(prev, chatId, now);
    assert !Lapsed(r.accounts[chatId].sub, later);
    assert Record(r, chatId, later) == r.accounts[chatId];
  }

  /**
   * `main`: fewer than two arguments or an argument that is not a chat id
   * ends the run with nothing migrated; otherwise the file's contents, or no
   * users when there is no file, are migrated to that id, which can never be
   * the template key.
   */
  function MigrateCommand(argv: seq<string>, file: Option<OldState>, now: int): (r: Option<State>)
    ensures r.Some? <==> |argv| >= 2 && IsChatId(argv[1])
    ensures r.Some? ==> argv[1] != Placeholder && r.value.order == [argv[1]] && r.value.accounts.Keys == {argv[1]}
    ensures r.Some? && file.None? ==> r.value.accounts[argv[1]].feeds == [] && r.value.accounts[argv[1]].digestTime == DefaultDigestTime
  {
    if |argv| < 2 || !IsChatId(argv[1]) then None
    else
      PlaceholderRejected();
      Some(Migrate(file.GetOr(map[]), argv[1], now))
  }
}
