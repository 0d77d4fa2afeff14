/**
 * The process credentials the launcher changes (setgroups, setgid, setuid)
 * and the child it finally spawns. Every call is recorded in a ghost trace
 * together with whether it succeeded; each call takes a fault flag standing
 * for the error the kernel may return.
 */
module Credentials {
  import opened Wrappers
  import opened Identity
  import opened Resolution

  datatype Creds = Creds(uid: Uid, gid: Gid, groups: seq<Gid>)

  datatype Call =
    | SetGroups(list: seq<Gid>, ok: bool)
    | SetGid(gid: Gid, ok: bool)
    | SetUid(uid: Uid, ok: bool)
    | Spawn(argv: seq<string>)

  /** How the child ended: its exit code, or a signal (no code). */
  datatype ExitStatus = Exited(code: int) | Signalled(signal: int)

  /** What `Command::status()` reports: the child's status, or a spawn error. */
  datatype SpawnResult = Finished(status: ExitStatus) | SpawnError

  /** The effect of one call on the credentials: only a successful setter changes anything. */
  function Effect(c: Creds, call: Call): (r: Creds)
    ensures call.SetGroups? && call.ok ==> r == c.(groups := call.list)
    ensures call.SetGid? && call.ok ==> r == c.(gid := call.gid)
    ensures call.SetUid? && call.ok ==> r == c.(uid := call.uid)
    ensures !(call.SetGroups? || call.SetGid? || call.SetUid?) || !call.ok ==> r == c
  {
    match call
    case SetGroups(list, ok) => if ok then c.(groups := list) else c
    case SetGid(gid, ok) => if ok then c.(gid := gid) else c
    case SetUid(uid, ok) => if ok then c.(uid := uid) else c
    case Spawn(_) => c
  }

  /** The credentials after a sequence of calls. */
  function Replay(c: Creds, calls: seq<Call>): Creds
    decreases |calls|
  {
    if calls == [] then c else Replay(Effect(c, calls[0]), calls[1..])
  }

  lemma {:induction false} ReplayAppend(c: Creds, calls: seq<Call>, call: Call)
    ensures Replay(c, calls + [call]) == Effect(Replay(c, calls), call)
    decreases |calls|
  {
    if calls != [] {
      assert (calls + [call])[1..] == calls[1..] + [call];
      ReplayAppend(Effect(c, calls[0]), calls[1..], call);
    }
  }

  /** The process whose identity the launcher switches. */
  class Process {
    var uid: Uid
    var gid: Gid
    var groups: seq<Gid>
    ghost var trace: seq<Call>

    function State(): Creds
      reads this
    {
      Creds(uid, gid, groups)
    }

    constructor (init: Creds)
      ensures State() == init && trace == []
    {
      uid, gid, groups := init.uid, init.gid, init.groups;
      trace := [];
    }

    /** setgroups(2): replaces the whole supplementary list, or fails and changes nothing. */
    method SetGroupsCall(list: seq<Gid>, fault: bool) returns (ok: bool)
      modifies this
      ensures ok == !fault
      ensures trace == old(trace) + [SetGroups(list, ok)]
      ensures State() == Effect(old(State()), SetGroups(list, ok))
    {
      ok := !fault;
      if ok {
        groups := list;
      }
      trace := trace + [SetGroups(list, ok)];
    }

    /** setgid(2). */
    method SetGidCall(target: Gid, fault: bool) returns (ok: bool)
      modifies this
      ensures ok == !fault
      ensures trace == old(trace) + [SetGid(target, ok)]
      ensures State() == Effect(old(State()), SetGid(target, ok))
    {
      ok := !fault;
      if ok {
        gid := target;
      }
      trace := trace + [SetGid(target, ok)];
    }

    /** setuid(2). */
    method SetUidCall(target: Uid, fault: bool) returns (ok: bool)
      modifies this
      ensures ok == !fault
      ensures trace == old(trace) + [SetUid(target, ok)]
      ensures State() == Effect(old(State()), SetUid(target, ok))
    {
      ok := !fault;
      if ok {
        uid := target;
      }
      trace := trace + [SetUid(target, ok)];
    }

    /** Command::new(argv[0]).args(argv[1..]).status(), with its outcome supplied from outside. */
    method SpawnCall(argv: seq<string>, outcome: SpawnResult) returns (r: SpawnResult)
      modifies this
      ensures r == outcome
      ensures trace == old(trace) + [Spawn(argv)]
      ensures State() == old(State())
    {
      r := outcome;
      trace := trace + [Spawn(argv)];
    }
  }

  /**
   * setup_groups: with a user name, install that account's group list
   * (nothing is called when the lookup fails); without one, install just the
   * target GID.
   */
  method SetupGroups(db: Db, proc: Process, username: Option<string>, targetGid: Gid, fault: bool)
    returns (r: Result<(), SetupError>)
    modifies proc
    ensures var lookup := if username.Some? then SupplementaryGroups(db, username.value) else Ok([targetGid]);
      && (lookup.Err? ==> r == Err(lookup.error) && proc.trace == old(proc.trace) && proc.State() == old(proc.State()))
      && (lookup.Ok? ==> (r.Ok? <==> !fault)
                         && (r.Err? ==> r.error == SetGroupsFailed)
                         && proc.trace == old(proc.trace) + [SetGroups(lookup.value, !fault)]
                         && proc.State() == Effect(old(proc.State()), SetGroups(lookup.value, !fault)))
  {
    var list: seq<Gid>;
    match username {
      case Some(name) =>
        var lookup := SupplementaryGroupList(db, name);
        if lookup.Err? {
          return Err(lookup.error);
        }
        list := lookup.value;
      case None =>
        list := [targetGid];
    }
    var ok := proc.SetGroupsCall(list, fault);
    if !ok {
      return Err(SetGroupsFailed);
    }
    return Ok(());
  }
}
