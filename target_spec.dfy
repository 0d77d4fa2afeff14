/**
 * The target specification `USER[:GROUP]` (parse_user_group): the token is
 * split on every ':' as Rust's `str::split` does, and the number of pieces
 * decides the outcome.
 */
module TargetSpec {
  import opened Wrappers

  const SEPARATOR: char := ':'

  datatype ParseError = InvalidFormat(arg: string)

  /** Number of occurrences of `c` in `s`. */
  function Count(s: string, c: char): nat {
    if s == [] then 0 else (if s[0] == c then 1 else 0) + Count(s[1..], c)
  }

  /** `s.split(sep).collect()`: the pieces between separators, empty pieces included. */
  function Split(s: string, sep: char): (parts: seq<string>)
    ensures |parts| >= 1
  {
    if s == [] then [""]
    else
      var rest := Split(s[1..], sep);
      if s[0] == sep then [""] + rest else [[s[0]] + rest[0]] + rest[1..]
  }

  /** The inverse of Split: the pieces glued back with the separator. */
  function Join(parts: seq<string>, sep: char): string
    requires |parts| >= 1
  {
    if |parts| == 1 then parts[0] else parts[0] + [sep] + Join(parts[1..], sep)
  }

  lemma {:induction false} SplitJoin(s: string, sep: char)
    ensures Join(Split(s, sep), sep) == s
  {
    if s != [] {
      var rest := Split(s[1..], sep);
      SplitJoin(s[1..], sep);
      if s[0] == sep {
        assert Split(s, sep)[1..] == rest;
      } else {
        var parts := Split(s, sep);
        if |rest| == 1 {
          assert parts == [[s[0]] + rest[0]];
        } else {
          assert parts[1..] == rest[1..];
          assert Join(rest, sep) == rest[0] + [sep] + Join(rest[1..], sep);
        }
      }
    }
  }

  lemma {:induction false} SplitCount(s: string, sep: char)
    ensures |Split(s, sep)| == Count(s, sep) + 1
  {
    if s != [] {
      SplitCount(s[1..], sep);
    }
  }

  lemma {:induction false} SplitPiecesFree(s: string, sep: char)
    ensures forall k :: 0 <= k < |Split(s, sep)| ==> sep !in Split(s, sep)[k]
  {
    if s != [] {
      SplitPiecesFree(s[1..], sep);
      var rest := Split(s[1..], sep);
      if s[0] != sep {
        assert sep !in rest[0];
        assert sep !in [s[0]] + rest[0];
      }
    }
  }

  /** A token without a separator is a single piece. */
  lemma {:induction false} SplitNoSeparator(s: string, sep: char)
    requires sep !in s
    ensures Split(s, sep) == [s]
  {
    if s != [] {
      SplitNoSeparator(s[1..], sep);
      assert [s[0]] + s[1..] == s;
    }
  }

  /** A separator-free prefix followed by a separator becomes the first piece. */
  lemma {:induction false} SplitAfterPrefix(u: string, g: string, sep: char)
    requires sep !in u
    ensures Split(u + [sep] + g, sep) == [u] + Split(g, sep)
  {
    if u == [] {
      assert u + [sep] + g == [sep] + g;
      assert ([sep] + g)[1..] == g;
    } else {
      SplitAfterPrefix(u[1..], g, sep);
      var s := u + [sep] + g;
      assert s[1..] == u[1..] + [sep] + g;
      assert [u[0]] + u[1..] == u;
    }
  }

  /** The token an administrator writes for a user and an optional group. */
  function FormatTarget(user: string, group: Option<string>): string {
    match group
    case None => user
    case Some(g) => user + [SEPARATOR] + g
  }

  /**
   * parse_user_group: one piece is `(user, None)`, two pieces are
   * `(user, Some(group))`, anything else is an error naming the token.
   */
  function ParseUserGroup(arg: string): (r: Result<(string, Option<string>), ParseError>)
    ensures r.Ok? <==> Count(arg, SEPARATOR) <= 1
    ensures r.Ok? ==> FormatTarget(r.value.0, r.value.1) == arg
    ensures r.Ok? ==> SEPARATOR !in r.value.0 && (r.value.1.Some? ==> SEPARATOR !in r.value.1.value)
    ensures r.Err? ==> r.error == InvalidFormat(arg)
  {
    var parts := Split(arg, SEPARATOR);
    SplitCount(arg, SEPARATOR);
    SplitJoin(arg, SEPARATOR);
    SplitPiecesFree(arg, SEPARATOR);
    if |parts| == 1 then Ok((parts[0], None))
    else if |parts| == 2 then
      assert Join(parts[1..], SEPARATOR) == parts[1];
      Ok((parts[0], Some(parts[1])))
    else Err(InvalidFormat(arg))
  }

  /** A token with no ':' is a bare user. */
  lemma ParseBareUser(arg: string)
    requires SEPARATOR !in arg
    ensures ParseUserGroup(arg) == Ok((arg, None))
  {
    SplitNoSeparator(arg, SEPARATOR);
  }

  /** Round trip: formatting separator-free names and parsing the result gives them back. */
  lemma ParseFormatTarget(user: string, group: Option<string>)
    requires SEPARATOR !in user
    requires group.Some? ==> SEPARATOR !in group.value
    ensures ParseUserGroup(FormatTarget(user, group)) == Ok((user, group))
  {
    match group
    case None =>
      ParseBareUser(user);
    case Some(g) =>
      SplitAfterPrefix(user, g, SEPARATOR);
      SplitNoSeparator(g, SEPARATOR);
  }

  /** Two or more ':' are refused. */
  lemma ParseTooManySeparators(arg: string, i: nat, j: nat)
    requires i < j < |arg| && arg[i] == SEPARATOR && arg[j] == SEPARATOR
    ensures ParseUserGroup(arg) == Err(InvalidFormat(arg))
  {
  }
}
