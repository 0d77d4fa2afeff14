# suexrs, modelled in Dafny

suexrs is a small privileged launcher: `suexrs USER[:GROUP] COMMAND [ARGS...]`.
It lets root, or a member of the `suexrs` group, run COMMAND as another
account. It checks the caller, resolves USER and GROUP to IDs, drops the
supplementary groups, the GID and the UID in that order, and spawns the
command. Its exit code is the child's.

The model covers the whole decision logic of `src/main.rs`:

- `TargetSpec` models `parse_user_group`. It splits the token on every `:` as Rust's
  `str::split` does. A round trip with `FormatTarget` is proved.
- `Numeric` models `str::parse::<u32>()`, used for numeric UID and GID tokens.
  The rule is: an optional `+`, decimal digits, and a value below 2^32.
- `Identity` holds the system databases as immutable maps. These are passwd by
  name, passwd by UID, group by name, and group membership. `GetGroupList`
  models `getgrouplist` writing into a caller-supplied buffer.
- `Authorization` models `user_in_suexrs_group`. It is an imperative method over a
  100-slot array with a scanning loop. The gate in `main` is `Authorized`.
- `Resolution` models how UID and GID are resolved from the tokens. It also
  models the lookup half of `setup_groups`.
- `Credentials` models the process credentials as a class with `uid`, `gid`,
  `groups` and a ghost trace of calls. Each setter takes a fault flag that
  stands for the kernel refusing the call. `SetupGroups` models `setup_groups`.
- `Launcher` models `main`. `Run` is the imperative program, and `Launch` and
  `Plan` specify it as functions of the inputs. The lemmas state the
  security argument: early exits and the gate, fail-closed lookups,
  supplementary groups taken from the user token only, and the call order
  setgroups → setgid → setuid → spawn, with no later call after a failure.

Inputs that come from outside the program are parameters:

- the identity databases (`Db`);
- the caller's real UID (the `Process` object);
- the kernel's answers to the three credential calls (`Faults`);
- what waiting for the child reports (`SpawnResult`).

Three consequences of the code a user may not expect:

- A numeric user token without an account of that literal name never
  reaches a credential call. `setup_groups` looks the token up with
  `getpwnam`. So `suexrs 1000 echo hi` exits 1 unless an account is
  named "1000", even when UID 1000 exists (`NumericUserWithoutAccountNameFails`).
- The arity check counts the program name. `suexrs alice` passes it and then
  stops at "No command provided". The exit code is 1 either way.
- An empty argv makes the usage message index `args[0]`. This panics and gives
  Rust's panic status, 101.

## Model

| member | source | states |
|---|---|---|
| TargetSpec.ParseUserGroup | src/main.rs:53-60 | Succeeds exactly when the token has at most one `:`. The parts contain no `:` and format back to the token. An error carries the token. |
| TargetSpec.ParseBareUser | src/main.rs:56 | A token without `:` parses to `(token, None)`. |
| TargetSpec.ParseFormatTarget | src/main.rs:56-57 | Round trip: for user and group without `:`, parsing `user` gives `(user, None)` and parsing `user:group` gives `(user, Some(group))`. |
| TargetSpec.ParseTooManySeparators | src/main.rs:58 | A token with two or more `:` is `InvalidFormat(token)`. |
| TargetSpec.Split | src/main.rs:54 | `arg.split(':').collect()`: always at least one piece. Its properties are stated by SplitJoin, SplitCount, SplitPiecesFree, SplitNoSeparator and SplitAfterPrefix. |
| TargetSpec.SplitJoin | src/main.rs:54 | Joining the pieces of `split(':')` with `:` gives the token back. |
| TargetSpec.SplitCount | src/main.rs:54 | `split` yields one piece more than there are separators. |
| TargetSpec.SplitPiecesFree | src/main.rs:54 | No piece of `split` contains the separator. |
| TargetSpec.SplitNoSeparator | src/main.rs:54 | A separator-free token splits into itself alone. |
| TargetSpec.SplitAfterPrefix | src/main.rs:54 | A separator-free prefix followed by `:` becomes the first piece, and the rest splits on its own. |
| Numeric.ParseU32 | src/main.rs:122 | A parsed value is the value of the digits after an optional `+`. A refusal means no digits, a stray character, or a value of 2^32 or more. |
| Numeric.ParseU32Decimal | src/main.rs:122 | Every u32, written in decimal with or without `+`, parses back to itself. |
| Numeric.NonDigitIsNotNumeric | src/main.rs:122-124 | A token with a character other than a digit or a leading `+` is not numeric, so it goes to the name lookup. |
| Numeric.ParseU32Overflow | src/main.rs:137 | Numbers at or above 2^32 are refused. |
| Numeric.DecimalValue | src/main.rs:122 | The decimal spelling of n has value n. |
| Identity.GroupList | src/main.rs:39 | The complete group list of an account starts with the base GID passed in. |
| Identity.GetGroupList | src/main.rs:74-76 | getgrouplist writes the leading entries that fit and leaves the rest of the buffer alone. ngroups becomes the full count. The result is -1 exactly when the list did not fit. |
| Authorization.InSuexrsGroup | src/main.rs:12-22 | Fail closed: false without a suexrs group, and false for a non-root caller without a passwd entry. True for root once the group exists. |
| Authorization.UserInSuexrsGroup | src/main.rs:10-50 | The scan of the first min(ngroups, 100) buffer slots answers exactly `InSuexrsGroup`. An overflow does not deny. |
| Authorization.Authorized | src/main.rs:114-120 | The gate: root always passes, and a non-root caller passes only where the suexrs group exists. The exact condition is stated by RootIsAuthorized, NonRootAuthorization and GateDecides. |
| Authorization.RootIsAuthorized | src/main.rs:114-120 | Root always passes the gate, even where `user_in_suexrs_group` answers false because the group is missing. |
| Authorization.NonRootAuthorization | src/main.rs:24-47 | Holds in both directions for a non-root caller. The caller passes exactly when the group and the passwd entry exist and the suexrs GID is among the first 100 entries of the caller's group list. |
| Authorization.PrimaryGroupAuthorizes | src/main.rs:39-47 | A caller whose primary GID is the suexrs GID passes. |
| Resolution.ResolveUid | src/main.rs:122-133 | A numeric token is the UID, whatever the databases hold. Otherwise the UID comes from getpwnam. A miss is `UnknownUser`, exactly when the token is neither numeric nor an account name. |
| Resolution.ResolveGid | src/main.rs:135-158 | A numeric group token is the GID. Otherwise the GID is getgrnam's, and a miss (neither numeric nor a group name) is `UnknownGroup`. With no group, the GID is the primary GID of getpwuid(target UID), and a miss is `UnknownUid`. |
| Resolution.ResolveTarget | src/main.rs:122-158 | The UID is resolved first: a UID miss is `UnknownUser` whatever the group. Otherwise the result succeeds exactly when the GID resolves for that UID, and it is the pair of the two. |
| Resolution.NumericTargetIgnoresDatabases | src/main.rs:122-138 | A numeric `UID:GID` resolves the same way against any databases, to the parsed numbers. |
| Resolution.NumericTokenShadowsName | src/main.rs:122-123 | Illustrates ResolveUid's first ensures: a numeric token wins even over an account with that name. |
| Resolution.SupplementaryGroups | src/main.rs:64-79 | The list is the getgrouplist answer for the account named by the user token, using that account's own name and primary GID. It has at most 100 entries. An error happens exactly when the account is missing or the list overflows. |
| Resolution.SupplementaryGroupList | src/main.rs:66-79 | Filling the 100-entry vector and truncating it to ngroups gives exactly `SupplementaryGroups`. |
| Resolution.OverflowRefusesTarget | src/main.rs:74-76 | More than 100 groups is a `GroupListFailed` error. The list is refused, not truncated. |
| Credentials.Effect | src/main.rs:160-173 | Only a successful credential call changes the credentials, and it changes only its own field. |
| Credentials.ReplayAppend | src/main.rs:160-173 | Replaying the calls one more step applies the last call's effect. |
| Credentials.Process.constructor | src/main.rs:114 | A process starts with the given credentials and an empty trace. |
| Credentials.Process.SetGroupsCall | src/main.rs:83-85 | setgroups succeeds exactly when not faulted. It replaces the whole list and records itself. |
| Credentials.Process.SetGidCall | src/main.rs:165-168 | setgid succeeds exactly when not faulted. It sets the GID only and records itself. |
| Credentials.Process.SetUidCall | src/main.rs:170-173 | setuid succeeds exactly when not faulted. It sets the UID only and records itself. |
| Credentials.Process.SpawnCall | src/main.rs:175-180 | The spawn reports the supplied outcome, records the command, and leaves the credentials alone. |
| Credentials.SetupGroups | src/main.rs:64-88 | A lookup failure returns its error with no call. Otherwise exactly one setgroups with the looked-up list (or `[target_gid]` without a name), which fails exactly when faulted. |
| Launcher.ChildExitCode | src/main.rs:182-192 | 0 exactly when the child exited with 0. Otherwise the child's code, or 1 for a signal or a spawn error. |
| Launcher.StopExit | src/main.rs:95-153 | Exit 101 exactly for the empty argv (the panic on `args[0]`). Every other stop is the `exit(1)` of its branch. StopsExitOne lifts this to whole invocations. |
| Launcher.Plan | src/main.rs:94-160 | Proceeding requires a target and a command, a passed gate, and at most 100 supplementary groups. The command is argv after the target. A lone program name is a usage error. |
| Launcher.Transition | src/main.rs:160-192 | The calls are setgroups, setgid, setuid, spawn, in that order, and stop at the first fault. A fault exits 1. All four calls happen exactly when nothing is faulted. |
| Launcher.Launch | src/main.rs:90-192 | `main` as a function of its inputs. It makes a call exactly when Plan goes ahead, and the first call is setgroups. Order, exit codes and final identity are stated by LaunchIsFailFast, SpawnRunsAsTarget, UidChangesLast and StopsExitOne. |
| Launcher.Run | src/main.rs:90-192 | main's exit code, trace and final credentials are those `Launch` specifies, and the calls it makes are fail-fast and in order. |
| Launcher.Switch | src/main.rs:160-192 | From setup_groups on, the calls, exit code and credentials are those of `Transition`. A lookup miss makes no call. |
| Launcher.PlanProceeds | src/main.rs:114-160 | A well-formed, authorized invocation whose target resolves and whose group list fits goes ahead with exactly the resolved UID and GID (an explicit GROUP included), the user token's group list and argv after the target. |
| Launcher.StopsExitOne | src/main.rs:95-158 | Every stop before the credential switch, including a resolution miss, exits 1 with no credential call; only an empty argv panics with 101. |
| Launcher.EarlyExitsMakeNoCalls | src/main.rs:95-112 | Too few arguments, a malformed target, or an empty command exit before any credential call. The exit code is 1, or 101 for an empty argv. |
| Launcher.GateDecides | src/main.rs:114-120 | Holds in both directions. With well-formed arguments, the gate stops the run exactly when the caller is neither root nor in the suexrs group, and then exits 1 with no call. |
| Launcher.CallsRequireAuthorizedResolvedTarget | src/main.rs:114-160 | Any credential call implies all of these: well-formed arguments, a passed gate, a resolved target, and an account named by the user token. |
| Launcher.LaunchIsFailFast | src/main.rs:160-192 | For every fault pattern, the calls are in the safe order and the first refusal exits 1. Exit 0 means all switches succeeded and the child exited 0. |
| Launcher.SupplementaryFromUserToken | src/main.rs:160 | The setgroups call installs the user token's `SupplementaryGroups`. |
| Launcher.GroupTokenDoesNotChangeSupplementary | src/main.rs:135-160 | Changing or dropping GROUP leaves the setgroups call unchanged. |
| Launcher.SpawnRunsAsTarget | src/main.rs:160-180 | At spawn time the process holds exactly the resolved UID, the resolved GID and the user token's group list. The command is argv after the target. |
| Launcher.UidChangesLast | src/main.rs:160-173 | The UID changes only through a successful setuid. That setuid comes after a successful setgid, which comes after a successful setgroups. |
| Launcher.RootRunsCommandAsAlice | src/main.rs:122-192 | Root running `suexrs alice echo hi` switches to alice's IDs and returns echo's exit code. |
| Launcher.NumericUserWithoutAccountNameFails | src/main.rs:66-70 | Root running `suexrs 1000 echo hi` with no account named "1000": the target resolves numerically to 1000/1000, then setup_groups' getpwnam("1000") misses, so the run exits 1 and makes no credential call. |

## Left out

- The libc calls themselves. getgrnam, getpwnam, getpwuid, getgrouplist and getuid are lookups in the immutable `Db` and the `Process` fields. setgroups, setgid and setuid are `Process` methods whose failure is an injected flag; the kernel's own reasons (EPERM, EINVAL) are not modelled.
- Real and effective IDs are not told apart. The process has one UID and one GID, and getuid reads that UID.
- getgrouplist follows glibc: the full list is the base GID followed by the groups that name the user, and an overflow returns -1 with ngroups set to the full count. Other platforms' overflow conventions, NSS errors, and glibc's removal of duplicate entries are not modelled.
- Spawning and waiting for the command, and stdin/stdout/stderr inheritance. The outcome is an input (`SpawnResult`). The operating system's truncation of the exit code to 8 bits is not modelled.
- env_logger / log setup and the text of every error and warning message, including the overflow warning in `user_in_suexrs_group`.
- The panics on a NUL inside a name (`CString::new(...).unwrap()`), on the `try_into().unwrap()` of the group count, and the empty-name fallback for a non-UTF-8 passwd name. Names here are strings without such cases.
- Non-UTF-8 arguments: `env::args()` panics (exit 101) on an argument that is not valid UTF-8. Arguments here are `seq<string>`, which cannot express such input.
