/** `parseInt(s, 10)` over decimal text, shared by every module that reads a
    number from a string. */
module Numbers {
  import opened Wrappers
  import opened Strings

  /** Length of the run of decimal digits at the start of `s`. */
  function DigitRun(s: string): (n: nat)
    ensures n <= |s|
    ensures forall i :: 0 <= i < n ==> IsDigit(s[i])
    ensures n == |s| || !IsDigit(s[n])
  {
    if s == [] || !IsDigit(s[0]) then 0 else 1 + DigitRun(s[1..])
  }

  /** The sign of a number text: -1 after a leading '-', and the text after
      the sign character when there is one. */
  function SignOf(t: string): (int, string)
  {
    if |t| > 0 && t[0] == '-' then (-1, t[1..])
    else if |t| > 0 && t[0] == '+' then (1, t[1..])
    else (1, t)
  }

  /** `parseInt(s, 10)` when finite: white space, an optional sign and the
      longest run of digits; None (NaN) when there is no digit. */
  function ParseIntPrefix(s: string): (r: Option<int>)
  {
    var (sign, body) := SignOf(TrimStart(s));
    var n := DigitRun(body);
    if n == 0 then None else Some(sign * DecimalValue(body[..n]))
  }

  /** `parseInt` reads back the decimal rendering of a number. */
  lemma ParseIntRoundTrip(n: int)
    ensures ParseIntPrefix(IntToString(n)) == Some(n)
  {
    var m: nat := if n < 0 then -n else n;
    var digits := NatToString(m);
    assert IsDigit(digits[0]);
    AllDigitsRun(digits);
    DecimalRoundTrip(m);
    if n < 0 {
      var s := "-" + digits;
      assert s[1..] == digits;
      NoLeadingSpace(s);
      assert SignOf(s) == (-1, digits);
    } else {
      NoLeadingSpace(digits);
      assert SignOf(digits) == (1, digits);
    }
  }

  /** A string that starts with a visible character is left as it is by
      `TrimStart`. */
  lemma NoLeadingSpace(s: string)
    requires |s| > 0 && (s[0] == '-' || IsDigit(s[0]))
    ensures TrimStart(s) == s
  {
    assert !IsSpace(s[0]);
    TrimStartVisible(s);
  }

  /** An all-digit string is its own digit run. */
  lemma AllDigitsRun(s: string)
    requires forall i :: 0 <= i < |s| ==> IsDigit(s[i])
    ensures DigitRun(s) == |s| && s[..|s|] == s
  {
  }
}
