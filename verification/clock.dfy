/** The `M:SS` countdown label both the journal screen and the voice
    recorder show. The two components carry identical `formatTime` helpers;
    the model defines it once. */
module Clock {
  import opened Base
  import opened Text

  const SecondsPerMinute := 60

  /** The seconds field: `${secs < 10 ? '0' : ''}${secs}`. */
  function SecondsField(secs: nat): (r: string)
    requires secs < SecondsPerMinute
    ensures |r| == 2 && AllDigits(r)
    ensures r == [DigitChar(secs / 10), DigitChar(secs % 10)]
  {
    if secs < 10 then
      assert Decimal(secs) == [DigitChar(secs)];
      "0" + Decimal(secs)
    else
      assert Decimal(secs / 10) == [DigitChar(secs / 10)];
      "" + Decimal(secs)
  }

  /** `formatTime(seconds)` for a non-negative count: whole minutes, a colon,
      then the remaining seconds as exactly two digits. The minutes field is
      not wrapped at 60. */
  function FormatTime(seconds: nat): (r: string)
    ensures |r| >= 4 && r[|r| - 3] == ':'
    ensures ParseDecimal(r[..|r| - 3]) == Some(seconds / SecondsPerMinute)
    ensures r[0] == '0' <==> seconds < SecondsPerMinute
    ensures AllDigits(r[|r| - 2..])
    ensures DigitsValue(r[|r| - 2..]) == seconds % SecondsPerMinute < SecondsPerMinute
  {
    var mins := Decimal(seconds / SecondsPerMinute);
    var secs := SecondsField(seconds % SecondsPerMinute);
    var r := mins + ":" + secs;
    DecimalRoundTrip(seconds / SecondsPerMinute);
    assert r[..|r| - 3] == mins;
    assert r[|r| - 2..] == secs;
    var s := seconds % SecondsPerMinute;
    assert secs[..1] == [DigitChar(s / 10)] && secs[..1][..0] == [];
    assert DigitsValue(secs[..1]) == s / 10;
    assert DigitsValue(secs) == (s / 10) * 10 + s % 10;
    r
  }

  /** Reads an `M:SS` label back as a number of seconds: any run of digits
      for the minutes, exactly two digits below 60 for the seconds. */
  function ParseTime(t: string): (r: Option<nat>)
    ensures r.Some? ==> |t| >= 4 && t[|t| - 3] == ':'
  {
    if |t| >= 4 && t[|t| - 3] == ':' then
      match (ParseDecimal(t[..|t| - 3]), ParseDecimal(t[|t| - 2..]))
      case (Some(m), Some(s)) =>
        if s < SecondsPerMinute then Some(m * SecondsPerMinute + s) else None
      case _ => None
    else None
  }

  /** Every label `FormatTime` produces reads back as the count it shows. */
  lemma FormatTimeRoundTrip(seconds: nat)
    ensures ParseTime(FormatTime(seconds)) == Some(seconds)
  {
  }
}
