/**
 * The system identity databases as the launcher sees them through libc:
 * the passwd database (getpwnam, getpwuid), the group database (getgrnam)
 * and the group-membership enumeration (getgrouplist).
 */
module Identity {

  /** uid_t and gid_t are unsigned 32-bit integers. */
  const ID_LIMIT: int := 0x1_0000_0000
  type Id = n: int | 0 <= n < ID_LIMIT
  type Uid = Id
  type Gid = Id

  /** Capacity of the group buffers handed to getgrouplist. */
  const MAX_GROUPS: nat := 100

  /** Name of the group whose members may use the launcher. */
  const SUEXRS_GROUP: string := "suexrs"

  /** The fields of a passwd entry the launcher reads. */
  datatype Passwd = Passwd(name: string, uid: Uid, gid: Gid)

  /**
   * A snapshot of the identity databases, fixed for one invocation.
   * The two passwd maps are independent lookups (getpwnam and getpwuid), as in
   * libc; nothing forces them to agree. memberOf lists, per user name, the
   * groups whose member lists name that user.
   */
  datatype Db = Db(
    passwdByName: map<string, Passwd>,
    passwdByUid: map<Uid, Passwd>,
    groupByName: map<string, Gid>,
    memberOf: map<string, seq<Gid>>)

  function Min(a: int, b: int): int {
    if a < b then a else b
  }

  /**
   * The complete answer getgrouplist(name, gid) has, before any capacity limit:
   * the base group first, then the groups that list the user.
   */
  function GroupList(db: Db, name: string, gid: Gid): (r: seq<Gid>)
    ensures |r| >= 1 && r[0] == gid
    ensures name !in db.memberOf ==> r == [gid]
  {
    [gid] + if name in db.memberOf then db.memberOf[name] else []
  }

  /**
   * getgrouplist(name, gid, groups, &ngroups) with capacity `capacity`:
   * writes as many leading entries of the complete list as fit, leaves the
   * rest of the buffer alone, sets ngroups to the full count, and returns -1
   * exactly when the list did not fit.
   */
  method GetGroupList(db: Db, name: string, gid: Gid, groups: array<Gid>, capacity: int)
    returns (ret: int, ngroups: int)
    requires 0 <= capacity <= groups.Length
    modifies groups
    ensures var full := GroupList(db, name, gid);
            var k := Min(|full|, capacity);
            && groups[..k] == full[..k]
            && groups[k..] == old(groups[k..])
            && ngroups == |full|
            && ret == (if |full| > capacity then -1 else |full|)
  {
    var full := GroupList(db, name, gid);
    var k := Min(|full|, capacity);
    forall i | 0 <= i < k {
      groups[i] := full[i];
    }
    ngroups := |full|;
    ret := if |full| > capacity then -1 else |full|;
  }
}
