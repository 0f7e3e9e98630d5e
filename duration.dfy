/**
 * `formatDuration`: a track length in whole seconds shown as `m:ss`, the
 * minutes unpadded and the seconds zero-padded to two digits.
 */
module Duration {
  import opened Wrappers
  import opened JsText

  /** `Math.floor(seconds / 60)`, then ':', then `seconds % 60` with a '0' in front when it is below 10. */
  function FormatDuration(seconds: nat): (r: string)
    ensures |r| >= 4 && r[|r| - 3] == ':'
    ensures r[..|r| - 3] == Decimal(seconds / 60)
    ensures IsDigit(r[|r| - 2]) && IsDigit(r[|r| - 1])
    ensures 10 * DigitValue(r[|r| - 2]) + DigitValue(r[|r| - 1]) == seconds % 60
  {
    var minutes := seconds / 60;
    var remainingSeconds := seconds % 60;
    assert remainingSeconds >= 10 ==>
      Decimal(remainingSeconds) == [DigitChar(remainingSeconds / 10), DigitChar(remainingSeconds % 10)];
    Decimal(minutes) + ":" + (if remainingSeconds < 10 then "0" else "") + Decimal(remainingSeconds)
  }

  /** An `m:ss` display: a canonical numeral, ':', two digits below 60. */
  predicate IsDurationDisplay(t: string) {
    && |t| >= 4
    && t[|t| - 3] == ':'
    && IsNumeral(t[..|t| - 3])
    && IsDigit(t[|t| - 2]) && IsDigit(t[|t| - 1])
    && 10 * DigitValue(t[|t| - 2]) + DigitValue(t[|t| - 1]) < 60
  }

  /** Reads an `m:ss` display back into seconds: `minutes * 60 + ss`. */
  function ParseDuration(t: string): (r: Option<nat>)
    ensures r.Some? <==> IsDurationDisplay(t)
  {
    if IsDurationDisplay(t) then
      Some(60 * ParseDecimal(t[..|t| - 3]) + 10 * DigitValue(t[|t| - 2]) + DigitValue(t[|t| - 1]))
    else
      None
  }

  /** Every formatted duration has the `m:ss` shape and reads back as the seconds it came from. */
  lemma FormatThenParse(seconds: nat)
    ensures IsDurationDisplay(FormatDuration(seconds))
    ensures ParseDuration(FormatDuration(seconds)) == Some(seconds)
  {
    DecimalRoundTrip(seconds / 60);
  }

  /** Every `m:ss` display is the formatting of the seconds it denotes. */
  lemma ParseThenFormat(t: string)
    requires IsDurationDisplay(t)
    ensures FormatDuration(ParseDuration(t).value) == t
  {
    var m := ParseDecimal(t[..|t| - 3]);
    var ss := 10 * DigitValue(t[|t| - 2]) + DigitValue(t[|t| - 1]);
    DivModSixty(m, ss);
    NumeralRoundTrip(t[..|t| - 3]);
    var r := FormatDuration(60 * m + ss);
    TwoDigitsDetermined(r[|r| - 2], r[|r| - 1], t[|t| - 2], t[|t| - 1]);
    SameDisplay(r, t);
  }

  lemma DivModSixty(m: nat, ss: nat)
    requires ss < 60
    ensures (60 * m + ss) / 60 == m && (60 * m + ss) % 60 == ss
  {
  }

  lemma TwoDigitsDetermined(a: char, b: char, c: char, d: char)
    requires IsDigit(a) && IsDigit(b) && IsDigit(c) && IsDigit(d)
    requires 10 * DigitValue(a) + DigitValue(b) == 10 * DigitValue(c) + DigitValue(d)
    ensures a == c && b == d
  {
    assert DigitChar(DigitValue(a)) == a && DigitChar(DigitValue(c)) == c;
    assert DigitChar(DigitValue(b)) == b && DigitChar(DigitValue(d)) == d;
  }

  /** Two displays with the same minutes, separator and seconds digits are equal. */
  lemma SameDisplay(r: string, t: string)
    requires |r| >= 3 && |t| >= 3
    requires r[..|r| - 3] == t[..|t| - 3]
    requires r[|r| - 3] == t[|t| - 3] && r[|r| - 2] == t[|t| - 2] && r[|r| - 1] == t[|t| - 1]
    ensures r == t
  {
    assert r == r[..|r| - 3] + [r[|r| - 3], r[|r| - 2], r[|r| - 1]];
    assert t == t[..|t| - 3] + [t[|t| - 3], t[|t| - 2], t[|t| - 1]];
  }

  /** Distinct lengths are never shown alike. */
  lemma FormatDurationInjective(a: nat, b: nat)
    requires FormatDuration(a) == FormatDuration(b)
    ensures a == b
  {
    FormatThenParse(a);
    FormatThenParse(b);
  }

  /** The seconds field starts with a padding '0' exactly when `seconds % 60 < 10`. */
  lemma PaddedExactlyBelowTen(seconds: nat)
    ensures var r := FormatDuration(seconds);
      r[|r| - 2] == '0' <==> seconds % 60 < 10
  {
    var r := FormatDuration(seconds);
    assert r[|r| - 2] == '0' <==> DigitValue(r[|r| - 2]) == 0;
  }

  /** The worked values `0:00`, `1:05`, `2:05`, `9:59` and `60:00`. */
  lemma FormatDurationExamples()
    ensures FormatDuration(0) == "0:00"
    ensures FormatDuration(65) == "1:05"
    ensures FormatDuration(125) == "2:05"
    ensures FormatDuration(599) == "9:59"
    ensures FormatDuration(3600) == "60:00"
  {
    assert Decimal(60) == "60" by {
      assert Decimal(6) == "6";
    }
  }
}
