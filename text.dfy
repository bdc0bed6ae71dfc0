/**
 * The two pieces of string handling the reasons and the message rely on:
 * rendering a non-negative count in decimal (Python's f-string
 * interpolation of an int) and joining a list with a separator
 * (Python's str.join).
 */
module Text {

  /** The character of the decimal digit d. */
  function Digit(d: nat): char
    requires d < 10
  {
    ('0' as int + d) as char
  }

  /** Every character of s is a decimal digit. */
  predicate IsDigits(s: string)
  {
    forall i :: 0 <= i < |s| ==> '0' <= s[i] <= '9'
  }

  /**
   * The decimal rendering of n: at least one digit, only digits, and a
   * leading zero exactly when n is zero (so no padding zeros).
   */
  function NatToString(n: nat): (s: string)
    ensures |s| >= 1 && IsDigits(s)
    ensures s[0] == '0' <==> n == 0
    ensures n < 10 <==> |s| == 1
    decreases n
  {
    if n < 10 then [Digit(n)] else NatToString(n / 10) + [Digit(n % 10)]
  }

  /** The number a string of decimal digits denotes, most significant digit first. */
  function DigitsValue(s: string): nat
    requires IsDigits(s)
  {
    if s == [] then 0 else DigitsValue(s[..|s| - 1]) * 10 + (s[|s| - 1] as int - '0' as int)
  }

  /** Reading back a rendered count gives the count: the rendering loses nothing. */
  lemma {:induction false} NatToStringRoundTrip(n: nat)
    ensures DigitsValue(NatToString(n)) == n
  {
    if n >= 10 {
      var init := NatToString(n / 10);
      NatToStringRoundTrip(n / 10);
      var s := init + [Digit(n % 10)];
      assert s[..|s| - 1] == init;
    } else {
      assert NatToString(n)[..0] == [];
    }
  }

  /** Distinct counts render as distinct strings. */
  lemma NatToStringInjective(m: nat, n: nat)
    requires NatToString(m) == NatToString(n)
    ensures m == n
  {
    NatToStringRoundTrip(m);
    NatToStringRoundTrip(n);
  }

  /** sep.join(parts): the parts in order, with sep between neighbours and nowhere else. */
  function Join(parts: seq<string>, sep: string): (s: string)
    ensures parts == [] ==> s == ""
    ensures parts != [] ==> |parts[0]| <= |s| && s[..|parts[0]|] == parts[0]
    ensures parts != [] ==> |parts[|parts| - 1]| <= |s| && s[|s| - |parts[|parts| - 1]|..] == parts[|parts| - 1]
  {
    if |parts| == 0 then ""
    else if |parts| == 1 then parts[0]
    else parts[0] + sep + Join(parts[1..], sep)
  }

  /**
   * Joining a list that grew by one part at the end extends the joined
   * text by the separator and that part: the order of the list is the
   * order of the text.
   */
  lemma {:induction false} JoinAppend(parts: seq<string>, p: string, sep: string)
    requires parts != []
    ensures Join(parts + [p], sep) == Join(parts, sep) + sep + p
  {
    if |parts| == 1 {
      assert (parts + [p])[1..] == [p];
    } else {
      assert (parts + [p])[1..] == parts[1..] + [p];
      JoinAppend(parts[1..], p, sep);
    }
  }
}
