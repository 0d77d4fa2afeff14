/**
 * main: argument checks, the authorization gate, target resolution, and the
 * ordered switch of supplementary groups, GID and UID before the command is
 * spawned; then the child's status becomes the launcher's exit code.
 */
module Launcher {
  import opened Wrappers
  import opened Identity
  import opened TargetSpec
  import opened Authorization
  import opened Resolution
  import opened Credentials

  const EXIT_FAILURE: int := 1
  /** Exit status of a Rust program whose main thread panicked. */
  const PANIC_EXIT: int := 101

  /** Which of the three credential calls the kernel refuses. */
  datatype Faults = Faults(setGroupsFails: bool, setGidFails: bool, setUidFails: bool)

  /** Why main stopped before touching any credential. */
  datatype Stop =
    | NoArguments                 // empty argv: the usage message indexes args[0] and panics
    | Usage                       // only the program name
    | BadTarget(parseError: ParseError)
    | NoCommand
    | PermissionDenied
    | Unresolved(resolveError: ResolveError)
    | GroupSetup(setupError: SetupError)

  /** The identity to adopt and the command to run under it. */
  datatype Target = Target(uid: Uid, gid: Gid, groups: seq<Gid>, argv: seq<string>)

  /** What one invocation does: its exit code and the calls it makes, in order. */
  datatype Outcome = Outcome(exit: int, calls: seq<Call>)

  function StopExit(s: Stop): (code: int)
    ensures code == PANIC_EXIT <==> s == NoArguments
    ensures s != NoArguments ==> code == EXIT_FAILURE
  {
    if s == NoArguments then PANIC_EXIT else EXIT_FAILURE
  }

  /** The exit code main ends with once the child has been waited for. */
  function ChildExitCode(child: SpawnResult): (code: int)
    ensures code == 0 <==> child == Finished(Exited(0))
    ensures child.Finished? && child.status.Exited? ==> code == child.status.code
    ensures child.SpawnError? || (child.Finished? && child.status.Signalled?) ==> code == EXIT_FAILURE
  {
    match child
    case Finished(Exited(code)) => code            // 0 on success, else status.code()
    case Finished(Signalled(_)) => EXIT_FAILURE    // status.code() is None
    case SpawnError => EXIT_FAILURE
  }

  /**
   * Everything main decides before its first credential call, for a caller
   * whose real UID is `caller`: argument arity, the target token, a
   * non-empty command, the gate, UID and GID resolution, and the
   * supplementary-group lookup of setup_groups.
   */
  function Plan(args: seq<string>, db: Db, caller: Uid): (r: Result<Target, Stop>)
    ensures r.Ok? ==> |args| >= 3 && Authorized(db, caller) && r.value.argv == args[2..]
    ensures r.Ok? ==> |r.value.groups| <= MAX_GROUPS
    ensures |args| == 1 ==> r == Err(Usage)
  {
    if |args| == 0 then Err(NoArguments)
    else if |args| < 2 then Err(Usage)
    else match ParseUserGroup(args[1])
      case Err(e) => Err(BadTarget(e))
      case Ok((user, group)) =>
        if |args[2..]| == 0 then Err(NoCommand)
        else if !Authorized(db, caller) then Err(PermissionDenied)
        else match ResolveTarget(db, user, group)
          case Err(e) => Err(Unresolved(e))
          case Ok((uid, gid)) =>
            match SupplementaryGroups(db, user)
            case Err(e) => Err(GroupSetup(e))
            case Ok(list) => Ok(Target(uid, gid, list, args[2..]))
  }

  function Rank(c: Call): nat {
    match c
    case SetGroups(_, _) => 0
    case SetGid(_, _) => 1
    case SetUid(_, _) => 2
    case Spawn(_) => 3
  }

  predicate Succeeded(c: Call) {
    match c
    case SetGroups(_, ok) => ok
    case SetGid(_, ok) => ok
    case SetUid(_, ok) => ok
    case Spawn(_) => true
  }

  /**
   * The safe order: setgroups, then setgid, then setuid, then the spawn,
   * each made only when every earlier one succeeded.
   */
  predicate FailFast(calls: seq<Call>) {
    && |calls| <= 4
    && (forall i :: 0 <= i < |calls| ==> Rank(calls[i]) == i)
    && (forall i :: 0 <= i < |calls| - 1 ==> Succeeded(calls[i]))
  }

  /** The credential switch and the spawn, stopping at the first refused call. */
  function Transition(t: Target, faults: Faults, child: SpawnResult): (o: Outcome)
    ensures FailFast(o.calls) && |o.calls| >= 1
    ensures !Succeeded(o.calls[|o.calls| - 1]) <==> o.exit == EXIT_FAILURE && |o.calls| < 4
    ensures |o.calls| == 4 <==> !faults.setGroupsFails && !faults.setGidFails && !faults.setUidFails
  {
    var groups := SetGroups(t.groups, !faults.setGroupsFails);
    var gid := SetGid(t.gid, !faults.setGidFails);
    var uid := SetUid(t.uid, !faults.setUidFails);
    if faults.setGroupsFails then Outcome(EXIT_FAILURE, [groups])
    else if faults.setGidFails then Outcome(EXIT_FAILURE, [groups, gid])
    else if faults.setUidFails then Outcome(EXIT_FAILURE, [groups, gid, uid])
    else Outcome(ChildExitCode(child), [groups, gid, uid, Spawn(t.argv)])
  }

  /** One invocation of the launcher, as a function of its inputs. */
  function Launch(args: seq<string>, db: Db, caller: Uid, faults: Faults, child: SpawnResult): (o: Outcome)
    ensures o.calls == [] <==> Plan(args, db, caller).Err?
    ensures o.calls != [] ==> o.calls[0].SetGroups?
  {
    match Plan(args, db, caller)
    case Err(s) => Outcome(StopExit(s), [])
    case Ok(t) => Transition(t, faults, child)
  }

  /**
   * main. `args` is the whole argv (program name first), `proc` the process
   * whose real UID identifies the caller, `faults` the kernel's answers to
   * the three credential calls and `child` what waiting for the command reports.
   */
  method Run(args: seq<string>, db: Db, proc: Process, faults: Faults, child: SpawnResult)
    returns (exit: int)
    modifies proc
    ensures exit == Launch(args, db, old(proc.uid), faults, child).exit
    ensures proc.trace == old(proc.trace) + Launch(args, db, old(proc.uid), faults, child).calls
    ensures proc.State() == Replay(old(proc.State()), Launch(args, db, old(proc.uid), faults, child).calls)
    ensures FailFast(proc.trace[|old(proc.trace)|..])
  {
    ghost var plan := Plan(args, db, proc.uid);
    ghost var trace0 := proc.trace;
    if |args| < 2 {
      // the usage message reads args[0], which an empty argv does not have
      exit := if |args| == 0 then PANIC_EXIT else EXIT_FAILURE;
      assert proc.trace[|trace0|..] == [];
      return;
    }
    var parsed := ParseUserGroup(args[1]);
    if parsed.Err? {
      assert plan == Err(BadTarget(parsed.error));
      assert proc.trace[|trace0|..] == [];
      return EXIT_FAILURE;
    }
    var user, group := parsed.value.0, parsed.value.1;
    var cmd := args[2..];
    if |cmd| == 0 {
      assert plan == Err(NoCommand);
      assert proc.trace[|trace0|..] == [];
      return EXIT_FAILURE;
    }
    var isRoot := proc.uid == 0;
    var inGroup := UserInSuexrsGroup(db, proc.uid);
    if !isRoot && !inGroup {
      assert plan == Err(PermissionDenied);
      assert proc.trace[|trace0|..] == [];
      return EXIT_FAILURE;
    }
    var uidResult := ResolveUid(db, user);
    if uidResult.Err? {
      assert plan == Err(Unresolved(uidResult.error));
      assert proc.trace[|trace0|..] == [];
      return EXIT_FAILURE;
    }
    var targetUid := uidResult.value;
    var gidResult := ResolveGid(db, group, targetUid);
    if gidResult.Err? {
      assert plan == Err(Unresolved(gidResult.error));
      assert proc.trace[|trace0|..] == [];
      return EXIT_FAILURE;
    }
    var targetGid := gidResult.value;
    ghost var lookup := SupplementaryGroups(db, user);
    if lookup.Err? {
      assert plan == Err(GroupSetup(lookup.error));
    } else {
      assert plan == Ok(Target(targetUid, targetGid, lookup.value, cmd));
    }
    exit := Switch(db, proc, user, targetUid, targetGid, cmd, faults, child);
  }

  /**
   * The tail of main from setup_groups on: supplementary groups, GID, UID,
   * then the spawn, leaving at the first failure.
   */
  method Switch(db: Db, proc: Process, user: string, targetUid: Uid, targetGid: Gid, cmd: seq<string>,
                faults: Faults, child: SpawnResult)
    returns (exit: int)
    modifies proc
    ensures var lookup := SupplementaryGroups(db, user);
      && (lookup.Err? ==> exit == EXIT_FAILURE && proc.trace == old(proc.trace) && proc.State() == old(proc.State()))
      && (lookup.Ok? ==>
            var o := Transition(Target(targetUid, targetGid, lookup.value, cmd), faults, child);
            && exit == o.exit
            && proc.trace == old(proc.trace) + o.calls
            && proc.State() == Replay(old(proc.State()), o.calls))
  {
    ghost var init := proc.State();
    var setup := SetupGroups(db, proc, Some(user), targetGid, faults.setGroupsFails);
    if setup.Err? && SupplementaryGroups(db, user).Err? {
      return EXIT_FAILURE;
    }
    ghost var t := Target(targetUid, targetGid, SupplementaryGroups(db, user).value, cmd);
    ghost var g := SetGroups(t.groups, !faults.setGroupsFails);
    ghost var d := SetGid(targetGid, !faults.setGidFails);
    ghost var u := SetUid(targetUid, !faults.setUidFails);
    ReplayAppend(init, [], g);
    if setup.Err? {
      return EXIT_FAILURE;
    }
    var ok := proc.SetGidCall(targetGid, faults.setGidFails);
    ReplayAppend(init, [g], d);
    assert [g] + [d] == [g, d];
    if !ok {
      return EXIT_FAILURE;
    }
    ok := proc.SetUidCall(targetUid, faults.setUidFails);
    ReplayAppend(init, [g, d], u);
    assert [g, d] + [u] == [g, d, u];
    if !ok {
      return EXIT_FAILURE;
    }
    var status := proc.SpawnCall(cmd, child);
    ReplayAppend(init, [g, d, u], Spawn(cmd));
    assert [g, d, u] + [Spawn(cmd)] == [g, d, u, Spawn(cmd)];
    exit := ChildExitCode(status);
  }

  /** Too few arguments, a malformed target or an empty command: exit before any credential call. */
  lemma EarlyExitsMakeNoCalls(args: seq<string>, db: Db, caller: Uid, faults: Faults, child: SpawnResult)
    requires |args| <= 2 || ParseUserGroup(args[1]).Err?
    ensures Launch(args, db, caller, faults, child).calls == []
    ensures Launch(args, db, caller, faults, child).exit == if |args| == 0 then PANIC_EXIT else EXIT_FAILURE
  {
  }

  /**
   * Once the arguments are well formed, the gate stops the invocation
   * exactly when the caller is neither root nor in the suexrs group, and a
   * stopped invocation makes no credential call.
   */
  lemma GateDecides(args: seq<string>, db: Db, caller: Uid, faults: Faults, child: SpawnResult)
    requires |args| >= 3 && ParseUserGroup(args[1]).Ok?
    ensures Plan(args, db, caller) == Err(PermissionDenied) <==> !Authorized(db, caller)
    ensures !Authorized(db, caller) ==>
      Launch(args, db, caller, faults, child) == Outcome(EXIT_FAILURE, [])
  {
  }

  /**
   * Conversely, a well-formed, authorized invocation whose target resolves
   * and whose group list fits goes ahead with exactly the resolved IDs, the
   * user token's group list and argv after the target.
   */
  lemma PlanProceeds(args: seq<string>, db: Db, caller: Uid)
    requires |args| >= 3 && ParseUserGroup(args[1]).Ok?
    requires Authorized(db, caller)
    requires ResolveTarget(db, ParseUserGroup(args[1]).value.0, ParseUserGroup(args[1]).value.1).Ok?
    requires SupplementaryGroups(db, ParseUserGroup(args[1]).value.0).Ok?
    ensures var (user, group) := ParseUserGroup(args[1]).value;
      Plan(args, db, caller) == Ok(Target(ResolveTarget(db, user, group).value.0,
                                          ResolveTarget(db, user, group).value.1,
                                          SupplementaryGroups(db, user).value,
                                          args[2..]))
  {
  }

  /**
   * Every stop before the credential switch (usage, bad target, no command,
   * denial, an unknown user, group or UID, a failed group lookup) exits 1
   * with no call; only an empty argv panics with 101.
   */
  lemma StopsExitOne(args: seq<string>, db: Db, caller: Uid, faults: Faults, child: SpawnResult)
    requires Plan(args, db, caller).Err?
    ensures Launch(args, db, caller, faults, child).calls == []
    ensures Launch(args, db, caller, faults, child).exit == if |args| == 0 then PANIC_EXIT else EXIT_FAILURE
  {
  }

  /**
   * No credential call without a well-formed command line, a passed gate,
   * a resolved target, and an account named by the user token itself.
   */
  lemma CallsRequireAuthorizedResolvedTarget(args: seq<string>, db: Db, caller: Uid, faults: Faults, child: SpawnResult)
    requires Launch(args, db, caller, faults, child).calls != []
    ensures |args| >= 3 && ParseUserGroup(args[1]).Ok?
    ensures Authorized(db, caller)
    ensures var (user, group) := ParseUserGroup(args[1]).value;
      && ResolveTarget(db, user, group).Ok?
      && user in db.passwdByName
      && SupplementaryGroups(db, user).Ok?
  {
  }

  /**
   * Whatever the kernel answers, the calls come in the one safe order and
   * stop at the first refusal, which exits 1; exit code 0 means all three
   * switches succeeded and the child exited with 0.
   */
  lemma LaunchIsFailFast(args: seq<string>, db: Db, caller: Uid, faults: Faults, child: SpawnResult)
    ensures var o := Launch(args, db, caller, faults, child);
      && FailFast(o.calls)
      && (o.calls != [] && !Succeeded(o.calls[|o.calls| - 1]) ==> o.exit == EXIT_FAILURE)
      && (o.exit == 0 <==> |o.calls| == 4 && child == Finished(Exited(0)))
      && (|o.calls| == 4 ==> o.exit == ChildExitCode(child))
  {
  }

  /**
   * The supplementary list installed is that of the account the user token
   * names; an explicit GROUP never enters it.
   */
  lemma SupplementaryFromUserToken(args: seq<string>, db: Db, caller: Uid, faults: Faults, child: SpawnResult)
    requires Launch(args, db, caller, faults, child).calls != []
    ensures |args| >= 2 && ParseUserGroup(args[1]).Ok?
    ensures var user := ParseUserGroup(args[1]).value.0;
      Launch(args, db, caller, faults, child).calls[0]
        == SetGroups(SupplementaryGroups(db, user).value, !faults.setGroupsFails)
  {
  }

  /** Changing only the GROUP part of the target leaves the setgroups call as it was. */
  lemma GroupTokenDoesNotChangeSupplementary(args1: seq<string>, args2: seq<string>, user: string,
                                              group1: Option<string>, group2: Option<string>,
                                              db: Db, caller: Uid, faults: Faults, child: SpawnResult)
    requires SEPARATOR !in user
    requires group1.Some? ==> SEPARATOR !in group1.value
    requires group2.Some? ==> SEPARATOR !in group2.value
    requires |args1| >= 2 && args1[1] == FormatTarget(user, group1)
    requires |args2| >= 2 && args2[1] == FormatTarget(user, group2)
    requires Launch(args1, db, caller, faults, child).calls != []
    requires Launch(args2, db, caller, faults, child).calls != []
    ensures Launch(args1, db, caller, faults, child).calls[0] == Launch(args2, db, caller, faults, child).calls[0]
  {
    ParseFormatTarget(user, group1);
    ParseFormatTarget(user, group2);
    SupplementaryFromUserToken(args1, db, caller, faults, child);
    SupplementaryFromUserToken(args2, db, caller, faults, child);
  }

  /**
   * When the command is spawned, the process holds exactly the resolved
   * UID, the resolved GID and the user token's supplementary list, and the
   * command is everything after the target token.
   */
  lemma SpawnRunsAsTarget(args: seq<string>, db: Db, init: Creds, faults: Faults, child: SpawnResult)
    requires |Launch(args, db, init.uid, faults, child).calls| == 4
    ensures |args| >= 3 && ParseUserGroup(args[1]).Ok?
    ensures var (user, group) := ParseUserGroup(args[1]).value;
      && ResolveTarget(db, user, group).Ok?
      && SupplementaryGroups(db, user).Ok?
      && Launch(args, db, init.uid, faults, child).calls[3] == Spawn(args[2..])
      && Replay(init, Launch(args, db, init.uid, faults, child).calls)
           == Creds(ResolveTarget(db, user, group).value.0,
                    ResolveTarget(db, user, group).value.1,
                    SupplementaryGroups(db, user).value)
  {
    var calls := Launch(args, db, init.uid, faults, child).calls;
    CallsRequireAuthorizedResolvedTarget(args, db, init.uid, faults, child);
    var c1 := Effect(init, calls[0]);
    var c2 := Effect(c1, calls[1]);
    var c3 := Effect(c2, calls[2]);
    assert calls[1..][1..][1..][1..] == [];
    calc {
      Replay(init, calls);
      Replay(c1, calls[1..]);
      Replay(c2, calls[1..][1..]);
      Replay(c3, calls[1..][1..][1..]);
      Replay(Effect(c3, calls[3]), []);
    }
  }

  /**
   * The UID changes only through a successful setuid, which comes after a
   * successful setgid, which comes after a successful setgroups.
   */
  lemma UidChangesLast(args: seq<string>, db: Db, init: Creds, faults: Faults, child: SpawnResult)
    ensures var calls := Launch(args, db, init.uid, faults, child).calls;
      Replay(init, calls).uid != init.uid ==>
        |calls| >= 3 && calls[0].SetGroups? && calls[0].ok && calls[1].SetGid? && calls[1].ok
        && calls[2] == SetUid(Replay(init, calls).uid, true)
  {
    var calls := Launch(args, db, init.uid, faults, child).calls;
    LaunchIsFailFast(args, db, init.uid, faults, child);
    if |calls| > 0 {
      var c1 := Effect(init, calls[0]);
      assert Replay(init, calls) == Replay(c1, calls[1..]);
      if |calls| == 1 {
        assert Replay(c1, calls[1..]) == c1;
      } else {
        var c2 := Effect(c1, calls[1]);
        assert Replay(c1, calls[1..]) == Replay(c2, calls[1..][1..]);
        if |calls| == 2 {
          assert Replay(c2, calls[1..][1..]) == c2;
        } else {
          var c3 := Effect(c2, calls[2]);
          assert Replay(c2, calls[1..][1..]) == Replay(c3, calls[1..][1..][1..]);
          if |calls| == 3 {
            assert Replay(c3, calls[1..][1..][1..]) == c3;
          } else {
            assert calls[1..][1..][1..][1..] == [];
            assert Replay(c3, calls[1..][1..][1..]) == Replay(Effect(c3, calls[3]), []);
          }
        }
      }
    }
  }

  /** A small system: alice is UID 1000 with primary group 1000; no account is named "1000". */
  function ExampleDb(): Db {
    Db(map["alice" := Passwd("alice", 1000, 1000)],
       map[1000 := Passwd("alice", 1000, 1000)],
       map["alice" := 1000],
       map[])
  }

  /**
   * As root, `suexrs alice echo hi` switches to alice and returns echo's
   * exit code.
   */
  lemma RootRunsCommandAsAlice(code: int)
    ensures Launch(["suexrs", "alice", "echo", "hi"], ExampleDb(), 0, Faults(false, false, false), Finished(Exited(code)))
      == Outcome(code, [SetGroups([1000], true), SetGid(1000, true), SetUid(1000, true), Spawn(["echo", "hi"])])
  {
  }

  /**
   * As root, `suexrs 1000 echo hi` exits 1 with no credential call: the UID
   * resolves numerically, but setup_groups then looks the token "1000" up
   * as an account name, and there is none.
   */
  lemma NumericUserWithoutAccountNameFails(child: SpawnResult, faults: Faults)
    ensures ResolveTarget(ExampleDb(), "1000", None) == Ok((1000, 1000))
    ensures Plan(["suexrs", "1000", "echo", "hi"], ExampleDb(), 0) == Err(GroupSetup(NoSuchUser("1000")))
    ensures Launch(["suexrs", "1000", "echo", "hi"], ExampleDb(), 0, faults, child) == Outcome(EXIT_FAILURE, [])
  {
    assert Numeric.Decimal(1000) == "1000";
    Numeric.ParseU32Decimal(1000);
    ParseBareUser("1000");
    var db := ExampleDb();
    assert ResolveUid(db, "1000") == Ok(1000);
    assert ResolveGid(db, None, 1000) == Ok(1000);
    assert "1000" !in db.passwdByName;
    assert SupplementaryGroups(db, "1000") == Err(NoSuchUser("1000"));
  }
}
