/**
 * The authorization check (user_in_suexrs_group and the gate in main): the
 * caller may switch identity when its real UID is 0 or when the `suexrs`
 * GID is among the group IDs getgrouplist reports for the caller's account
 * into a 100-slot buffer.
 */
module Authorization {
  import opened Identity

  /** The group IDs the scan can see: at most MAX_GROUPS leading entries. */
  function Visible(full: seq<Gid>): (r: seq<Gid>)
    ensures |r| <= MAX_GROUPS && |r| <= |full| && r == full[..|r|]
    ensures |r| == Min(|full|, MAX_GROUPS)
  {
    full[..Min(|full|, MAX_GROUPS)]
  }

  /** What user_in_suexrs_group answers for the caller with real UID `realUid`. */
  function InSuexrsGroup(db: Db, realUid: Uid): (r: bool)
    ensures SUEXRS_GROUP !in db.groupByName ==> !r
    ensures realUid != 0 && realUid !in db.passwdByUid ==> !r
    ensures SUEXRS_GROUP in db.groupByName && realUid == 0 ==> r
  {
    && SUEXRS_GROUP in db.groupByName
    && (|| realUid == 0
        || (&& realUid in db.passwdByUid
            && var pwd := db.passwdByUid[realUid];
               db.groupByName[SUEXRS_GROUP] in Visible(GroupList(db, pwd.name, pwd.gid))))
  }

  /** The gate in main: root, or a member of the suexrs group. */
  predicate Authorized(db: Db, realUid: Uid)
    ensures realUid == 0 ==> Authorized(db, realUid)
    ensures Authorized(db, realUid) ==> realUid == 0 || SUEXRS_GROUP in db.groupByName
  {
    realUid == 0 || InSuexrsGroup(db, realUid)
  }

  /**
   * user_in_suexrs_group: fail closed on a missing group or passwd entry,
   * root passes once the group exists, and otherwise scan the first
   * min(ngroups, MAX_GROUPS) slots of the buffer. An overflow of the buffer
   * only warns; it does not deny.
   */
  method UserInSuexrsGroup(db: Db, realUid: Uid) returns (inGroup: bool)
    ensures inGroup == InSuexrsGroup(db, realUid)
  {
    if SUEXRS_GROUP !in db.groupByName {
      return false;
    }
    var suexrsGid := db.groupByName[SUEXRS_GROUP];
    if realUid == 0 {
      return true;
    }
    var groups := new Gid[MAX_GROUPS](_ => 0);
    var ngroups: int := MAX_GROUPS;
    if realUid !in db.passwdByUid {
      return false;
    }
    var pwd := db.passwdByUid[realUid];
    var ret;
    ret, ngroups := GetGroupList(db, pwd.name, pwd.gid, groups, MAX_GROUPS);
    // ret < 0 only prints a warning: the list may be incomplete
    ghost var full := GroupList(db, pwd.name, pwd.gid);
    var limit := Min(ngroups, MAX_GROUPS);
    assert groups[..limit] == Visible(full);
    var i := 0;
    while i < limit
      invariant 0 <= i <= limit
      invariant suexrsGid !in groups[..i]
    {
      if groups[i] == suexrsGid {
        assert groups[..limit][i] == suexrsGid;
        return true;
      }
      assert groups[..i + 1] == groups[..i] + [groups[i]];
      i := i + 1;
    }
    assert groups[..i] == groups[..limit];
    return false;
  }

  /** Root passes the gate even on a system without a suexrs group. */
  lemma RootIsAuthorized(db: Db)
    ensures Authorized(db, 0)
    ensures SUEXRS_GROUP !in db.groupByName ==> !InSuexrsGroup(db, 0)
  {
  }

  /**
   * A non-root caller is authorized exactly when its account exists and the
   * suexrs GID is among the first MAX_GROUPS entries of its group list; an
   * entry past the buffer is never seen.
   */
  lemma NonRootAuthorization(db: Db, realUid: Uid)
    requires realUid != 0
    ensures Authorized(db, realUid) <==>
      (&& SUEXRS_GROUP in db.groupByName
       && realUid in db.passwdByUid
       && exists k :: 0 <= k < MAX_GROUPS
            && k < |GroupList(db, db.passwdByUid[realUid].name, db.passwdByUid[realUid].gid)|
            && GroupList(db, db.passwdByUid[realUid].name, db.passwdByUid[realUid].gid)[k] == db.groupByName[SUEXRS_GROUP])
  {
  }

  /** The primary group of the caller's account always counts as membership. */
  lemma PrimaryGroupAuthorizes(db: Db, realUid: Uid)
    requires SUEXRS_GROUP in db.groupByName && realUid in db.passwdByUid
    requires db.passwdByUid[realUid].gid == db.groupByName[SUEXRS_GROUP]
    ensures Authorized(db, realUid)
  {
  }
}
