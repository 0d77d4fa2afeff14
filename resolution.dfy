/**
 * Turning the parsed target into concrete IDs (the resolution part of main)
 * and the supplementary-group lookup of setup_groups.
 */
module Resolution {
  import opened Wrappers
  import opened Identity
  import opened Numeric

  datatype ResolveError =
    | UnknownUser(name: string)   // the user token is neither numeric nor an account name
    | UnknownGroup(name: string)  // the group token is neither numeric nor a group name
    | UnknownUid(uid: Uid)        // no GROUP given and no account has the target UID

  datatype SetupError =
    | NoSuchUser(name: string)        // getpwnam(user token) found nothing
    | GroupListFailed(name: string)   // getgrouplist reported an overflow
    | SetGroupsFailed                 // setgroups returned an error

  /** The user token as a UID: numeric first, then getpwnam. */
  function ResolveUid(db: Db, user: string): (r: Result<Uid, ResolveError>)
    ensures ParseU32(user).Some? ==> r == Ok(ParseU32(user).value)
    ensures r.Err? <==> ParseU32(user).None? && user !in db.passwdByName
    ensures r.Err? ==> r.error == UnknownUser(user)
    ensures r.Ok? && ParseU32(user).None? ==> r.value == db.passwdByName[user].uid
  {
    match ParseU32(user)
    case Some(uid) => Ok(uid)
    case None =>
      if user in db.passwdByName then Ok(db.passwdByName[user].uid) else Err(UnknownUser(user))
  }

  /**
   * The group token as a GID (numeric first, then getgrnam), or, without a
   * group token, the primary group of the account getpwuid finds for the
   * resolved UID.
   */
  function ResolveGid(db: Db, group: Option<string>, targetUid: Uid): (r: Result<Gid, ResolveError>)
    ensures group.None? ==> (r.Ok? <==> targetUid in db.passwdByUid)
    ensures group.None? && r.Ok? ==> r.value == db.passwdByUid[targetUid].gid
    ensures group.None? && r.Err? ==> r.error == UnknownUid(targetUid)
    ensures group.Some? ==> (r.Err? <==> ParseU32(group.value).None? && group.value !in db.groupByName)
    ensures group.Some? && r.Err? ==> r.error == UnknownGroup(group.value)
    ensures group.Some? && r.Ok? ==>
      r.value == (if ParseU32(group.value).Some? then ParseU32(group.value).value else db.groupByName[group.value])
  {
    match group
    case Some(g) =>
      (match ParseU32(g)
       case Some(gid) => Ok(gid)
       case None => if g in db.groupByName then Ok(db.groupByName[g]) else Err(UnknownGroup(g)))
    case None =>
      if targetUid in db.passwdByUid then Ok(db.passwdByUid[targetUid].gid) else Err(UnknownUid(targetUid))
  }

  /** Both IDs, UID first; the GID lookup needs the UID. */
  function ResolveTarget(db: Db, user: string, group: Option<string>): (r: Result<(Uid, Gid), ResolveError>)
    ensures ResolveUid(db, user).Err? ==> r == Err(UnknownUser(user))
    ensures ResolveUid(db, user).Ok? ==>
      var uid := ResolveUid(db, user).value;
      (r.Ok? <==> ResolveGid(db, group, uid).Ok?) && (r.Ok? ==> r.value == (uid, ResolveGid(db, group, uid).value))
  {
    match ResolveUid(db, user)
    case Err(e) => Err(e)
    case Ok(uid) =>
      match ResolveGid(db, group, uid)
      case Err(e) => Err(e)
      case Ok(gid) => Ok((uid, gid))
  }

  /** A numeric user and group are taken as they are: the databases are not consulted. */
  lemma NumericTargetIgnoresDatabases(db1: Db, db2: Db, user: string, group: string)
    requires ParseU32(user).Some? && ParseU32(group).Some?
    ensures ResolveTarget(db1, user, Some(group)) == ResolveTarget(db2, user, Some(group))
    ensures ResolveTarget(db1, user, Some(group)) == Ok((ParseU32(user).value, ParseU32(group).value))
  {
  }

  /** Illustrates ResolveUid's first ensures: a numeric user token wins even over an account of the same name. */
  lemma NumericTokenShadowsName(db: Db, user: string)
    requires ParseU32(user).Some? && user in db.passwdByName
    ensures ResolveUid(db, user) == Ok(ParseU32(user).value)
  {
  }

  /**
   * The supplementary list setup_groups installs for the user token: the
   * account getpwnam finds by that name, and getgrouplist of that account's
   * own name and primary GID. The explicit GROUP plays no part.
   */
  function SupplementaryGroups(db: Db, user: string): (r: Result<seq<Gid>, SetupError>)
    ensures r.Ok? ==> |r.value| <= MAX_GROUPS
    ensures r.Ok? ==>
      && user in db.passwdByName
      && r.value == GroupList(db, db.passwdByName[user].name, db.passwdByName[user].gid)
    ensures r.Err? <==> (user !in db.passwdByName ||
      |GroupList(db, db.passwdByName[user].name, db.passwdByName[user].gid)| > MAX_GROUPS)
  {
    if user !in db.passwdByName then Err(NoSuchUser(user))
    else
      var pwd := db.passwdByName[user];
      var full := GroupList(db, pwd.name, pwd.gid);
      if |full| > MAX_GROUPS then Err(GroupListFailed(user)) else Ok(full)
  }

  /**
   * The lookup half of setup_groups(Some(name), _): a 100-entry vector filled
   * by getgrouplist and truncated to ngroups; a missing account or an
   * overflow is an error.
   */
  method SupplementaryGroupList(db: Db, name: string) returns (r: Result<seq<Gid>, SetupError>)
    ensures r == SupplementaryGroups(db, name)
    ensures r.Ok? ==> |r.value| <= MAX_GROUPS
  {
    if name !in db.passwdByName {
      return Err(NoSuchUser(name));
    }
    var pwd := db.passwdByName[name];
    var ngroups: int := MAX_GROUPS;
    var groups := new Gid[MAX_GROUPS](_ => 0);
    var ret;
    ret, ngroups := GetGroupList(db, pwd.name, pwd.gid, groups, MAX_GROUPS);
    if ret < 0 {
      return Err(GroupListFailed(name));
    }
    // groups.truncate(ngroups): ngroups <= MAX_GROUPS once the call succeeded
    ghost var full := GroupList(db, pwd.name, pwd.gid);
    assert ngroups == |full| == Min(|full|, MAX_GROUPS);
    var kept := groups[..ngroups];
    assert kept == full[..|full|] == full;
    return Ok(kept);
  }

  /** A user with more than MAX_GROUPS groups cannot be switched to: the list is refused, not cut. */
  lemma OverflowRefusesTarget(db: Db, user: string)
    requires user in db.passwdByName
    requires db.passwdByName[user].name in db.memberOf
    requires |db.memberOf[db.passwdByName[user].name]| >= MAX_GROUPS
    ensures SupplementaryGroups(db, user) == Err(GroupListFailed(user))
  {
  }
}
