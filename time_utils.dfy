/** Elapsed-time formatting (src/utils/time.js). */
module TimeUtils {
  import opened Wrappers
  import opened Strings

  /** `Math.max(0, Math.floor(x))`. */
  function WholeNonNegative(x: real): (n: nat)
    ensures x < 0.0 ==> n == 0
    ensures x >= 0.0 ==> n as real <= x < n as real + 1.0
  {
    if x < 0.0 then 0 else x.Floor
  }

  /** `formatElapsed(seconds)`: "Ns" below a minute, else "Mm Ss". */
  function FormatElapsed(seconds: real): (r: string)
    ensures var s := WholeNonNegative(seconds);
      (s < 60 ==> r == NatToString(s) + "s")
      && (s >= 60 ==> r == NatToString(s / 60) + "m " + NatToString(s % 60) + "s")
  {
    var s := WholeNonNegative(seconds);
    if s < 60 then NatToString(s) + "s"
    else NatToString(s / 60) + "m " + NatToString(s % 60) + "s"
  }

  /** Reads the minute and second counts back from a formatted elapsed time. */
  function ElapsedSeconds(r: string): Option<nat>
  {
    var m := IndexOf(r, "m ");
    if !EndsWith(r, "s") then None
    else if m < 0 then
      var digits := r[..|r| - 1];
      if forall i :: 0 <= i < |digits| ==> IsDigit(digits[i]) then Some(DecimalValue(digits)) else None
    else
      if m + 2 > |r| - 1 then None
      else
        var mins := r[..m];
        var secs := r[m + 2..|r| - 1];
        if (forall i :: 0 <= i < |mins| ==> IsDigit(mins[i])) && (forall i :: 0 <= i < |secs| ==> IsDigit(secs[i]))
        then Some(60 * DecimalValue(mins) + DecimalValue(secs))
        else None
  }

  lemma DigitsHaveNoMinuteMark(s: string)
    requires forall i :: 0 <= i < |s| ==> IsDigit(s[i])
    ensures IndexOf(s + "s", "m ") == -1
  {
    var t := s + "s";
    forall j | 0 <= j && j + 2 <= |t| ensures !OccursAt(t, "m ", j) {
      assert j < |s|;
      assert t[j..j + 2][0] == s[j];
    }
  }

  lemma MinuteMarkPosition(a: string, b: string)
    requires forall i :: 0 <= i < |a| ==> IsDigit(a[i])
    requires forall i :: 0 <= i < |b| ==> IsDigit(b[i])
    ensures IndexOf(a + "m " + b + "s", "m ") == |a|
  {
    var t := a + "m " + b + "s";
    assert OccursAt(t, "m ", |a|) by { assert t[|a|..|a| + 2] == "m "; }
    forall j | 0 <= j < |a| ensures !OccursAt(t, "m ", j) {
      assert t[j] == a[j];
      if j + 2 <= |t| { assert t[j..j + 2][0] == t[j]; }
    }
  }

  /** The formatted text gives back the whole number of seconds. */
  lemma FormatElapsedRoundTrip(seconds: real)
    ensures ElapsedSeconds(FormatElapsed(seconds)) == Some(WholeNonNegative(seconds))
  {
    var s := WholeNonNegative(seconds);
    var r := FormatElapsed(seconds);
    if s < 60 {
      DigitsHaveNoMinuteMark(NatToString(s));
      assert r[..|r| - 1] == NatToString(s);
      DecimalRoundTrip(s);
    } else {
      var a, b := NatToString(s / 60), NatToString(s % 60);
      MinuteMarkPosition(a, b);
      assert r == a + "m " + b + "s";
      assert r[..|a|] == a;
      assert r[|a| + 2..|r| - 1] == b;
      DecimalRoundTrip(s / 60);
      DecimalRoundTrip(s % 60);
    }
  }

  /** `formatDurationMs(ms)`: '?' for a missing value, "Nms" below a second,
      otherwise the elapsed whole seconds. */
  function FormatDurationMs(ms: Option<real>): (r: string)
    ensures ms.None? ==> r == "?"
    ensures ms.Some? && WholeNonNegative(ms.value) < 1000 ==> r == NatToString(WholeNonNegative(ms.value)) + "ms"
    ensures ms.Some? && WholeNonNegative(ms.value) >= 1000 ==>
      r == FormatElapsed((WholeNonNegative(ms.value) / 1000) as real)
  {
    if ms.None? then "?"
    else
      var v := WholeNonNegative(ms.value);
      if v < 1000 then NatToString(v) + "ms"
      else
        FloorOfDivision(v);
        FormatElapsed(v as real / 1000.0)
  }

  lemma FloorOfDivision(v: nat)
    ensures WholeNonNegative(v as real / 1000.0) == v / 1000
  {
    var q, m := v / 1000, v % 1000;
    assert v as real / 1000.0 == q as real + m as real / 1000.0;
  }
}
