/**
 * The bot configuration (an owner and a list of admins) and the username
 * directory (manage_feeds.py): who is privileged, how the owner is set, how
 * admins are added and removed, and how an "@handle" resolves to a user id.
 */
module BotConfig {
  import opened Wrappers
  import opened Text
  import opened Seqs

  /** The configuration file's contents; a missing or unreadable file reads as `EmptyConfig`. */
  datatype Config = Config(owner: Option<string>, admins: seq<string>)

  const EmptyConfig := Config(None, [])

  predicate IsOwner(c: Config, uid: string)
  {
    c.owner.Some? && uid == c.owner.value
  }

  predicate IsAdmin(c: Config, uid: string)
  {
    uid in c.admins
  }

  /** Owner or admin: the identities that get Pro limits and skip rate limits. */
  predicate IsPrivileged(c: Config, uid: string)
  {
    IsOwner(c, uid) || IsAdmin(c, uid)
  }

  /** An owner id that Python treats as unset: missing, `None` or the empty string. */
  predicate OwnerUnset(c: Config)
  {
    c.owner.None? || c.owner == Some("")
  }

  /** `set_owner_id`: the first caller becomes owner; once an owner is set nothing changes. */
  function SetOwnerId(c: Config, uid: string): (r: Config)
    ensures OwnerUnset(c) ==> IsOwner(r, uid)
    ensures !OwnerUnset(c) ==> r == c
    ensures r.admins == c.admins
    ensures forall v :: IsOwner(r, v) ==> v == uid || IsOwner(c, v)
  {
    if OwnerUnset(c) then c.(owner := Some(uid)) else c
  }

  /** Once an owner is set, later calls cannot replace it, whoever makes them. */
  lemma {:induction false} OwnerIsFirstWriter(c: Config, first: string, later: string)
    requires OwnerUnset(c) && first != ""
    ensures SetOwnerId(SetOwnerId(c, first), later) == SetOwnerId(c, first)
    ensures IsOwner(SetOwnerId(SetOwnerId(c, first), later), later) <==> later == first
  {
    var once := SetOwnerId(c, first);
    assert once.owner == Some(first);
  }

  /**
   * Setting the owner does not consult the admin list: an admin can become
   * owner and stay an admin, so the two roles are not disjoint.
   */
  lemma OwnerMayBeAdmin(uid: string)
    ensures var c := SetOwnerId(Config(None, [uid]), uid);
      IsOwner(c, uid) && IsAdmin(c, uid)
  {
  }

  // ----- Username directory -----

  /** One directory entry, keyed by the lower-cased handle without leading '@'. */
  datatype Handle = Handle(userId: string, username: string, firstName: Option<string>, lastSeen: int)

  type Directory = map<string, Handle>

  /** The directory key of a handle: lower-cased, leading '@' characters removed. */
  function HandleKey(name: string): (k: string)
    ensures |k| > 0 ==> k[0] != '@'
  {
    LStripChar(Lower(name), '@')
  }

  /** `register_user`: a missing or empty username changes nothing; otherwise the entry for its key is replaced. */
  function RegisterUser(d: Directory, uid: string, username: Option<string>, firstName: Option<string>, now: int): (r: Directory)
    ensures username.None? || username == Some("") ==> r == d
    ensures username.Some? && username.value != "" ==>
      && HandleKey(username.value) in r
      && r[HandleKey(username.value)].userId == uid
      && forall k :: k != HandleKey(username.value) ==> (k in r <==> k in d) && (k in d ==> r[k] == d[k])
  {
    if username.None? || username.value == "" then d
    else d[HandleKey(username.value) := Handle(uid, username.value, firstName, now)]
  }

  /** `get_user_id_by_username`. */
  function UserIdByUsername(d: Directory, name: string): (r: Option<string>)
    ensures r.Some? <==> HandleKey(name) in d
    ensures r.Some? ==> r.value == d[HandleKey(name)].userId
  {
    var k := HandleKey(name);
    if k in d then Some(d[k].userId) else None
  }

  /** Prefixing '@' does not change a handle's key. */
  lemma {:induction false} AtPrefixSameKey(name: string)
    ensures HandleKey("@" + name) == HandleKey(name)
  {
    LowerAppend("@", name);
    assert Lower("@") == "@";
    var l := Lower(name);
    assert ("@" + l)[1..] == l;
  }

  /** After registering a handle, looking it up, with or without a leading '@', yields the user id. */
  lemma RegisterThenLookup(d: Directory, uid: string, username: string, firstName: Option<string>, now: int)
    requires username != ""
    ensures UserIdByUsername(RegisterUser(d, uid, Some(username), firstName, now), username) == Some(uid)
    ensures UserIdByUsername(RegisterUser(d, uid, Some(username), firstName, now), "@" + username) == Some(uid)
  {
    AtPrefixSameKey(username);
  }

  // ----- Admin management -----

  datatype AdminResult =
    | Added(uid: string)
    | Removed(uid: string)
    | HandleNotFound
    | OwnerRefused
    | AlreadyAdmin(uid: string)
    | NotAdmin(uid: string)

  /**
   * The user id an admin command names: an identifier starting with '@' is
   * looked up in the directory, and a missing or empty id means "not found";
   * any other identifier is the id itself.
   */
  function ResolveIdentifier(d: Directory, identifier: string): (r: Option<string>)
    ensures !StartsWith(identifier, "@") ==> r == Some(identifier)
    ensures StartsWith(identifier, "@") && r.Some? ==> r.value != "" && UserIdByUsername(d, identifier) == r
  {
    if StartsWith(identifier, "@") then
      match UserIdByUsername(d, identifier)
      case None => None
      case Some(uid) => if uid == "" then None else Some(uid)
    else Some(identifier)
  }

  /**
   * `add_admin`: an unknown handle, the owner, and an existing admin are
   * refused in that order; otherwise the id is appended to the admin list.
   */
  function AddAdmin(c: Config, d: Directory, identifier: string): (r: (AdminResult, Config))
    ensures r.0.Added? ==> r.1 == c.(admins := c.admins + [r.0.uid]) && !IsOwner(c, r.0.uid) && !IsAdmin(c, r.0.uid)
    ensures !r.0.Added? ==> r.1 == c
    ensures r.0.HandleNotFound? <==> ResolveIdentifier(d, identifier).None?
    ensures ResolveIdentifier(d, identifier).Some? ==>
      var uid := ResolveIdentifier(d, identifier).value;
      && (IsOwner(c, uid) <==> r.0 == OwnerRefused)
      && (!IsOwner(c, uid) && IsAdmin(c, uid) <==> r.0 == AlreadyAdmin(uid))
      && (!IsPrivileged(c, uid) <==> r.0 == Added(uid))
    ensures r.0.Added? || r.0.HandleNotFound? || r.0.OwnerRefused? || r.0.AlreadyAdmin?
  {
    match ResolveIdentifier(d, identifier)
    case None => (HandleNotFound, c)
    case Some(uid) =>
      if IsOwner(c, uid) then (OwnerRefused, c)
      else if IsAdmin(c, uid) then (AlreadyAdmin(uid), c)
      else (Added(uid), c.(admins := c.admins + [uid]))
  }

  /**
   * `remove_admin`: an unknown handle and a non-admin are refused; otherwise
   * every copy of the id leaves the admin list.
   */
  function RemoveAdmin(c: Config, d: Directory, identifier: string): (r: (AdminResult, Config))
    ensures r.0.Removed? ==> IsAdmin(c, r.0.uid) && !IsAdmin(r.1, r.0.uid) && r.1.owner == c.owner
    ensures r.0.Removed? ==> forall a :: a != r.0.uid ==> (IsAdmin(r.1, a) <==> IsAdmin(c, a))
    ensures !r.0.Removed? ==> r.1 == c
    ensures r.0.HandleNotFound? <==> ResolveIdentifier(d, identifier).None?
    ensures ResolveIdentifier(d, identifier).Some? ==>
      var uid := ResolveIdentifier(d, identifier).value;
      (IsAdmin(c, uid) <==> r.0 == Removed(uid)) && (!IsAdmin(c, uid) <==> r.0 == NotAdmin(uid))
    ensures r.0.Removed? || r.0.HandleNotFound? || r.0.NotAdmin?
  {
    match ResolveIdentifier(d, identifier)
    case None => (HandleNotFound, c)
    case Some(uid) =>
      if !IsAdmin(c, uid) then (NotAdmin(uid), c)
      else (Removed(uid), c.(admins := RemoveAll(c.admins, uid)))
  }

  /** Adding an admin keeps a duplicate-free admin list duplicate-free, and never makes the owner an admin. */
  lemma AddAdminKeepsList(c: Config, d: Directory, identifier: string)
    requires NoDup(c.admins)
    requires c.owner.None? || !IsAdmin(c, c.owner.value)
    ensures var r := AddAdmin(c, d, identifier).1;
      NoDup(r.admins) && (r.owner.None? || !IsAdmin(r, r.owner.value))
  {
  }

  /** Removing an admin right after adding them restores the configuration. */
  lemma {:induction false} AddThenRemove(c: Config, d: Directory, identifier: string)
    requires AddAdmin(c, d, identifier).0.Added?
    ensures var added := AddAdmin(c, d, identifier).1;
      RemoveAdmin(added, d, identifier) == (Removed(AddAdmin(c, d, identifier).0.uid), c)
  {
    var uid := AddAdmin(c, d, identifier).0.uid;
    RemoveAllAppended(c.admins, uid);
  }
}
