/** The proto3 JSON mapping of google.protobuf.Duration, restricted to whole
    seconds: the number of seconds in base 10 followed by the suffix 's'. */
module DurationCodec {
  import opened Wrappers
  import opened DecimalInt

  /** A Go time.Duration counts nanoseconds in 64 bits; this many whole
      seconds is the most it holds. */
  const MaxSeconds: int := 9_223_372_036

  const SecondsPerMinute: int := 60
  const SecondsPerHour: int := 3600

  /** A duration in whole seconds. */
  type Duration = s: int | -MaxSeconds <= s <= MaxSeconds

  function FormatDuration(d: Duration): (s: string)
    ensures |s| >= 2 && s[|s| - 1] == 's'
    ensures IsCanonical(s[..|s| - 1])
  {
    FormatInt(d) + "s"
  }

  /** A decimal integer literal followed by 's'; any other suffix, a
      non-numeric prefix or a value beyond the range of a duration fails. */
  function ParseDuration(s: string): (r: Option<Duration>)
    ensures r.Some? ==> |s| >= 2 && s[|s| - 1] == 's' && IsLiteral(s[..|s| - 1])
  {
    if |s| == 0 || s[|s| - 1] != 's' then None
    else
      match ParseInt(s[..|s| - 1])
      case Some(n) => if -MaxSeconds <= n <= MaxSeconds then Some(n) else None
      case None => None
  }

  /** Every duration written is read back unchanged. */
  lemma DurationRoundTrip(d: Duration)
    ensures ParseDuration(FormatDuration(d)) == Some(d)
  {
    var s := FormatDuration(d);
    assert s[..|s| - 1] == FormatInt(d);
    ParseFormat(d);
  }

  /** A canonical duration string that parses is what FormatDuration writes
      for its value. */
  lemma DurationCanonical(s: string)
    requires ParseDuration(s).Some? && IsCanonical(s[..|s| - 1])
    ensures FormatDuration(ParseDuration(s).value) == s
  {
    FormatParse(s[..|s| - 1]);
  }

  /** Test vectors: 20 hours is "72000s"; "10s" reads as 10 seconds; "abc"
      and "xyz" are rejected. */
  lemma DurationVectors()
    ensures FormatDuration(20 * SecondsPerHour) == "72000s"
    ensures FormatDuration(10) == "10s" && FormatDuration(0) == "0s"
    ensures ParseDuration("10s") == Some(10) && ParseDuration("15s") == Some(15)
    ensures ParseDuration("abc") == None && ParseDuration("xyz") == None
  {
    assert FormatNat(72000) == "72000";
    DurationRoundTrip(10);
    DurationRoundTrip(15);
    assert FormatDuration(15) == "15s";
  }

  /** Test vectors: 5, 15 and 20 seconds. */
  lemma DurationSecondsVectors()
    ensures FormatDuration(5) == "5s" && FormatDuration(15) == "15s"
    ensures ParseDuration("5s") == Some(5) && ParseDuration("20s") == Some(20)
  {
    DurationRoundTrip(5);
    DurationRoundTrip(20);
    assert FormatDuration(15) == "15s";
    assert FormatDuration(20) == "20s";
  }
}
