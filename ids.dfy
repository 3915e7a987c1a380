/**
 * Identifiers of the form `<kind>-<Date.now()>`: a fixed prefix followed by the
 * decimal rendering of a millisecond timestamp, which callers pass in.
 */
module Ids {

  /** The character of a decimal digit. */
  function DigitChar(d: nat): (c: char)
    requires d < 10
    ensures '0' <= c <= '9'
    ensures c as int - '0' as int == d
  {
    ('0' as int + d) as char
  }

  /** The decimal rendering of `n`, as a template literal `${n}` produces it (no leading zeros). */
  function NatToString(n: nat): (s: string)
    ensures |s| >= 1
    ensures (|s| == 1) <==> n < 10
    ensures forall i :: 0 <= i < |s| ==> '0' <= s[i] <= '9'
    decreases n
  {
    if n < 10 then [DigitChar(n)] else NatToString(n / 10) + [DigitChar(n % 10)]
  }

  /** Distinct numbers have distinct renderings. */
  lemma {:induction false} NatToStringInjective(a: nat, b: nat)
    requires NatToString(a) == NatToString(b)
    ensures a == b
  {
    var sa, sb := NatToString(a), NatToString(b);
    if a < 10 {
      assert b < 10;
      assert sa[0] == DigitChar(a) && sb[0] == DigitChar(b);
    } else {
      assert b >= 10;
      assert sa[|sa| - 1] == DigitChar(a % 10) && sb[|sb| - 1] == DigitChar(b % 10);
      assert sa[..|sa| - 1] == NatToString(a / 10);
      assert sb[..|sb| - 1] == NatToString(b / 10);
      NatToStringInjective(a / 10, b / 10);
    }
  }

  /** The identifier `prefix + now`, e.g. `component-1700000000000`. */
  function TimestampId(prefix: string, now: nat): (id: string)
    ensures |id| > |prefix| && id[..|prefix|] == prefix
  {
    prefix + NatToString(now)
  }

  /**
   * Two identifiers of one kind coincide exactly when they were created at the
   * same millisecond: uniqueness rests on creations being spaced apart in time.
   */
  lemma TimestampIdsCollideIffSameTime(prefix: string, a: nat, b: nat)
    ensures TimestampId(prefix, a) == TimestampId(prefix, b) <==> a == b
  {
    if TimestampId(prefix, a) == TimestampId(prefix, b) {
      assert TimestampId(prefix, a)[|prefix|..] == NatToString(a);
      assert TimestampId(prefix, b)[|prefix|..] == NatToString(b);
      NatToStringInjective(a, b);
    }
  }
}
