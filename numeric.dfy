/**
 * Rust's `str::parse::<u32>()`, which the launcher uses for uid_t and gid_t
 * tokens: an optional leading '+', then one or more ASCII decimal digits,
 * whose value must fit in 32 bits. A '-' sign is refused for unsigned types.
 */
module Numeric {
  import opened Wrappers
  import opened Identity

  predicate IsDigit(c: char) {
    '0' <= c <= '9'
  }

  predicate AllDigits(s: string) {
    forall i :: 0 <= i < |s| ==> IsDigit(s[i])
  }

  /** The value of a string of decimal digits (leading zeros allowed). */
  function DigitsValue(s: string): nat
    requires AllDigits(s)
  {
    if s == [] then 0
    else DigitsValue(s[..|s| - 1]) * 10 + (s[|s| - 1] as int - '0' as int)
  }

  /** The digits after the optional '+' sign. */
  function Unsigned(s: string): string {
    if |s| > 0 && s[0] == '+' then s[1..] else s
  }

  /** `s.parse::<u32>()`: None for an empty string, a lone sign, a stray character or an overflow. */
  function ParseU32(s: string): (r: Option<Id>)
    ensures r.Some? ==> |Unsigned(s)| > 0 && AllDigits(Unsigned(s)) && DigitsValue(Unsigned(s)) == r.value
    ensures r.None? ==> |Unsigned(s)| == 0 || !AllDigits(Unsigned(s)) || DigitsValue(Unsigned(s)) >= ID_LIMIT
  {
    var digits := Unsigned(s);
    if |digits| == 0 || !AllDigits(digits) then None
    else if DigitsValue(digits) < ID_LIMIT then Some(DigitsValue(digits))
    else None
  }

  /** The canonical decimal spelling of a natural number. */
  function Decimal(n: nat): (s: string)
    ensures |s| > 0 && AllDigits(s)
  {
    if n < 10 then [('0' as int + n) as char]
    else Decimal(n / 10) + [('0' as int + n % 10) as char]
  }

  lemma {:induction false} DecimalValue(n: nat)
    ensures DigitsValue(Decimal(n)) == n
  {
    if n >= 10 {
      var s := Decimal(n);
      assert s[..|s| - 1] == Decimal(n / 10);
      DecimalValue(n / 10);
    }
  }

  /** Every uid_t/gid_t, written in decimal with or without a '+', parses back to itself. */
  lemma ParseU32Decimal(n: Id)
    ensures ParseU32(Decimal(n)) == Some(n)
    ensures ParseU32("+" + Decimal(n)) == Some(n)
  {
    DecimalValue(n);
    assert Decimal(n)[0] != '+';
    assert Unsigned("+" + Decimal(n)) == Decimal(n);
  }

  /** A token holding any character other than a digit or a leading '+' is never numeric, so it is looked up as a name. */
  lemma NonDigitIsNotNumeric(s: string, i: nat)
    requires i < |s| && !IsDigit(s[i]) && !(i == 0 && s[i] == '+')
    ensures ParseU32(s) == None
  {
  }

  /** Numbers at or above 2^32, written in decimal, do not parse. */
  lemma ParseU32Overflow(n: nat)
    requires n >= ID_LIMIT
    ensures ParseU32(Decimal(n)) == None
  {
    DecimalValue(n);
  }
}
