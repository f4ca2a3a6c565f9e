/**
 * The TTL strings of the token configuration: a bare number of seconds
 * ("900") or a number followed by a unit letter s, m, h or d in either case
 * ("15m", "14D"). Anything else is rejected with a plain `Error`.
 */
module Security {
  import opened Digits
  import opened Errors

  /** Seconds per unit letter; the letter is matched case-insensitively. */
  function UnitSeconds(c: char): (r: int)
    ensures r in {0, 1, 60, 3600, 86400}
    ensures r != 0 <==> c in "smhdSMHD"
  {
    if c == 's' || c == 'S' then 1
    else if c == 'm' || c == 'M' then 60
    else if c == 'h' || c == 'H' then 3600
    else if c == 'd' || c == 'D' then 86400
    else 0
  }

  /** The string matches `^\d+$`. */
  predicate IsCount(ttl: string) {
    |ttl| > 0 && AllDigits(ttl)
  }

  /** The string matches `^(\d+)([smhd])$` case-insensitively. */
  predicate IsCountWithUnit(ttl: string) {
    |ttl| >= 2 && IsCount(ttl[..|ttl| - 1]) && UnitSeconds(ttl[|ttl| - 1]) != 0
  }

  /** `parseTtlToSeconds(ttl)`. */
  function ParseTtl(ttl: string): (r: Result<nat>)
    ensures r.Ok? <==> IsCount(ttl) || IsCountWithUnit(ttl)
    ensures r.Err? ==> r.thrown == ErrorObject("Invalid TTL: " + ttl)
  {
    if IsCount(ttl) then Ok(Value(ttl))
    else if IsCountWithUnit(ttl) then
      Ok(Value(ttl[..|ttl| - 1]) * UnitSeconds(ttl[|ttl| - 1]))
    else Err(ErrorObject("Invalid TTL: " + ttl))
  }

  /** A rendered number of seconds parses back to itself. */
  lemma ParseSeconds(n: nat)
    ensures ParseTtl(ToDecimal(n)) == Ok(n)
  {
    ValueOfToDecimal(n);
  }

  /** A rendered count with a unit letter parses to the count times the unit's length in seconds. */
  lemma ParseWithUnit(n: nat, unit: char)
    requires unit in "smhdSMHD"
    ensures ParseTtl(ToDecimal(n) + [unit]) == Ok(n * UnitSeconds(unit))
  {
    var s := ToDecimal(n) + [unit];
    assert s[..|s| - 1] == ToDecimal(n);
    assert !AllDigits(s) by { assert !IsDigit(s[|s| - 1]); }
    ValueOfToDecimal(n);
  }

  /** The default access and refresh lifetimes: fifteen minutes and fourteen days. */
  lemma DefaultLifetimes()
    ensures ParseTtl("15m") == Ok(900)
    ensures ParseTtl("14d") == Ok(1209600)
  {
    assert "15m" == ToDecimal(15) + ['m'];
    ParseWithUnit(15, 'm');
    assert "14d" == ToDecimal(14) + ['d'];
    ParseWithUnit(14, 'd');
  }
}
