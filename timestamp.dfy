/** Absolute timestamps on the wire: RFC 3339 text in UTC with the 'Z'
    suffix (section 5.6 of RFC 3339), to whole seconds. A timestamp is
    modelled as its UTC calendar fields. */
module TimestampCodec {
  import opened Wrappers
  import opened DecimalInt

  datatype DateTime = DateTime(year: int, month: int, day: int, hour: int, minute: int, second: int)

  predicate IsLeapYear(year: int) {
    year % 4 == 0 && (year % 100 != 0 || year % 400 == 0)
  }

  function DaysInMonth(year: int, month: int): int
    requires 1 <= month <= 12
  {
    if month == 2 then (if IsLeapYear(year) then 29 else 28)
    else if month == 4 || month == 6 || month == 9 || month == 11 then 30
    else 31
  }

  /** A calendar instant that Go's time.Time can hold and can write as
      RFC 3339 JSON: a four-digit year and in-range fields. */
  predicate ValidDateTime(t: DateTime) {
    && 0 <= t.year <= 9999
    && 1 <= t.month <= 12
    && 1 <= t.day <= DaysInMonth(t.year, t.month)
    && 0 <= t.hour < 24
    && 0 <= t.minute < 60
    && 0 <= t.second < 60
  }

  type Timestamp = t: DateTime | ValidDateTime(t) witness DateTime(1, 1, 1, 0, 0, 0)

  /** Go's zero time.Time: January 1 of year 1, 00:00:00 UTC. A record field
      holding it has no timestamp recorded. */
  const ZeroTime: Timestamp := DateTime(1, 1, 1, 0, 0, 0)

  /** The RFC 3339 layout Go writes for a UTC instant:
      "YYYY-MM-DDTHH:MM:SSZ", every field zero-padded to its width. */
  predicate IsRFC3339Shape(s: string) {
    |s| == 20 && IsDateShape(s) && IsClockShape(s)
  }

  /** "YYYY-MM-DDT" */
  predicate IsDateShape(s: string)
    requires |s| == 20
  {
    && IsDigit(s[0]) && IsDigit(s[1]) && IsDigit(s[2]) && IsDigit(s[3]) && s[4] == '-'
    && IsDigit(s[5]) && IsDigit(s[6]) && s[7] == '-'
    && IsDigit(s[8]) && IsDigit(s[9]) && s[10] == 'T'
  }

  /** "HH:MM:SSZ" */
  predicate IsClockShape(s: string)
    requires |s| == 20
  {
    && IsDigit(s[11]) && IsDigit(s[12]) && s[13] == ':'
    && IsDigit(s[14]) && IsDigit(s[15]) && s[16] == ':'
    && IsDigit(s[17]) && IsDigit(s[18]) && s[19] == 'Z'
  }

  function DigitAt(s: string, i: nat): (d: nat)
    requires i < |s| && IsDigit(s[i])
    ensures d < 10 && DigitChar(d) == s[i]
  {
    s[i] as int - '0' as int
  }

  function TwoDigitsAt(s: string, i: nat): (n: nat)
    requires i + 1 < |s| && IsDigit(s[i]) && IsDigit(s[i + 1])
    ensures n < 100
  {
    10 * DigitAt(s, i) + DigitAt(s, i + 1)
  }

  /** Fields that fit the layout's digit positions: a four-digit year and
      two digits for each other field. Every timestamp has them. */
  predicate FitsLayout(t: DateTime) {
    && 0 <= t.year <= 9999
    && 0 <= t.month < 100 && 0 <= t.day < 100
    && 0 <= t.hour < 100 && 0 <= t.minute < 100 && 0 <= t.second < 100
  }

  /** The fields written in the layout, zero-padded; for a timestamp this
      is time.Time.Format(time.RFC3339) of the UTC instant. */
  function FormatRFC3339(t: DateTime): (s: string)
    requires FitsLayout(t)
    ensures |s| == 20
  {
    [ DigitChar(t.year / 1000), DigitChar(t.year / 100 % 10), DigitChar(t.year / 10 % 10), DigitChar(t.year % 10), '-',
      DigitChar(t.month / 10), DigitChar(t.month % 10), '-',
      DigitChar(t.day / 10), DigitChar(t.day % 10), 'T',
      DigitChar(t.hour / 10), DigitChar(t.hour % 10), ':',
      DigitChar(t.minute / 10), DigitChar(t.minute % 10), ':',
      DigitChar(t.second / 10), DigitChar(t.second % 10), 'Z' ]
  }

  /** Reads "YYYY-MM-DDTHH:MM:SSZ". Malformed text and out-of-range fields
      (month 13, February 29 of a common year, second 60, ...) fail. */
  function ParseRFC3339(s: string): (r: Option<Timestamp>)
    ensures r.Some? ==> IsRFC3339Shape(s)
  {
    if !IsRFC3339Shape(s) then None
    else
      var t := DateTime(100 * TwoDigitsAt(s, 0) + TwoDigitsAt(s, 2), TwoDigitsAt(s, 5), TwoDigitsAt(s, 8),
                        TwoDigitsAt(s, 11), TwoDigitsAt(s, 14), TwoDigitsAt(s, 17));
      if ValidDateTime(t) then Some(t) else None
  }

  lemma FormatDateShape(t: DateTime)
    requires FitsLayout(t)
    ensures IsDateShape(FormatRFC3339(t))
  {
  }

  lemma FormatClockShape(t: DateTime)
    requires FitsLayout(t)
    ensures IsClockShape(FormatRFC3339(t))
  {
  }

  /** What FormatRFC3339 writes has the RFC 3339 layout. */
  lemma FormatShape(t: DateTime)
    requires FitsLayout(t)
    ensures IsRFC3339Shape(FormatRFC3339(t))
  {
    FormatDateShape(t);
    FormatClockShape(t);
  }

  /** Reading the layout back gives the fields that were written when they
      make a valid instant, and fails when they do not. */
  lemma ParseOfFormat(t: DateTime)
    requires FitsLayout(t)
    ensures ParseRFC3339(FormatRFC3339(t)) == if ValidDateTime(t) then Some(t) else None
  {
    var s := FormatRFC3339(t);
    FormatShape(t);
    YearDigits(t.year);
    ReadTwoDigits(s, 0, t.year / 100);
    ReadTwoDigits(s, 2, t.year % 100);
    ReadTwoDigits(s, 5, t.month);
    ReadTwoDigits(s, 8, t.day);
    ReadTwoDigits(s, 11, t.hour);
    ReadTwoDigits(s, 14, t.minute);
    ReadTwoDigits(s, 17, t.second);
  }

  /** Every timestamp written is read back unchanged. */
  lemma TimestampRoundTrip(t: Timestamp)
    ensures ParseRFC3339(FormatRFC3339(t)) == Some(t)
  {
    ParseOfFormat(t);
  }

  /** Two characters written for a number below 100 read back as it. */
  lemma ReadTwoDigits(s: string, i: nat, n: nat)
    requires n < 100 && i + 1 < |s| && s[i] == DigitChar(n / 10) && s[i + 1] == DigitChar(n % 10)
    ensures TwoDigitsAt(s, i) == n
  {
  }

  /** The four digits of a year, taken as two pairs. */
  lemma YearDigits(y: nat)
    ensures y / 100 / 10 == y / 1000
    ensures y % 100 / 10 == y / 10 % 10 && y % 100 % 10 == y % 10
  {
    LeadingPair(y);
    TrailingPair(y);
  }

  lemma LeadingPair(y: nat)
    ensures y / 100 / 10 == y / 1000
  {
    var q := y / 100;
    var a, b := q / 10, q % 10;
    assert y == 1000 * a + (100 * b + y % 100);
  }

  lemma TrailingPair(y: nat)
    ensures y % 100 / 10 == y / 10 % 10 && y % 100 % 10 == y % 10
  {
    var t, d := y / 10, y % 10;
    var e, f := t / 10, t % 10;
    assert y == 10 * t + d;
    assert t == 10 * e + f;
    var r := 10 * f + d;
    assert y == 100 * e + r;
    RemainderOf100(y, e, r);
    assert r / 10 == f && r % 10 == d;
  }

  lemma RemainderOf100(y: nat, e: nat, r: nat)
    requires r < 100 && y == 100 * e + r
    ensures y % 100 == r
  {
  }

  /** The other direction: text that reads as a timestamp is exactly what
      FormatRFC3339 writes for it, so the layout admits one spelling per
      instant. */
  lemma TimestampCanonical(s: string)
    requires ParseRFC3339(s).Some?
    ensures FormatRFC3339(ParseRFC3339(s).value) == s
  {
    var t := ParseRFC3339(s).value;
    var f := FormatRFC3339(t);
    DigitsOfTwoDigits(s, 0);
    DigitsOfTwoDigits(s, 2);
    DigitsOfYear(s);
    DigitsOfTwoDigits(s, 5);
    DigitsOfTwoDigits(s, 8);
    DigitsOfTwoDigits(s, 11);
    DigitsOfTwoDigits(s, 14);
    DigitsOfTwoDigits(s, 17);
    assert f[0] == s[0] && f[1] == s[1] && f[2] == s[2] && f[3] == s[3];
    assert forall i :: 0 <= i < 20 ==> f[i] == s[i];
  }

  lemma DigitsOfTwoDigits(s: string, i: nat)
    requires i + 1 < |s| && IsDigit(s[i]) && IsDigit(s[i + 1])
    ensures DigitChar(TwoDigitsAt(s, i) / 10) == s[i]
    ensures DigitChar(TwoDigitsAt(s, i) % 10) == s[i + 1]
  {
    var d0, d1 := DigitAt(s, i), DigitAt(s, i + 1);
    assert TwoDigitsAt(s, i) / 10 == d0 && TwoDigitsAt(s, i) % 10 == d1;
  }

  lemma DigitsOfYear(s: string)
    requires IsRFC3339Shape(s)
    ensures var year := 100 * TwoDigitsAt(s, 0) + TwoDigitsAt(s, 2);
      && year / 1000 == TwoDigitsAt(s, 0) / 10
      && year / 100 % 10 == TwoDigitsAt(s, 0) % 10
      && year / 10 % 10 == TwoDigitsAt(s, 2) / 10
      && year % 10 == TwoDigitsAt(s, 2) % 10
  {
    FourDigits(DigitAt(s, 0), DigitAt(s, 1), DigitAt(s, 2), DigitAt(s, 3));
  }

  lemma FourDigits(d0: nat, d1: nat, d2: nat, d3: nat)
    requires d0 < 10 && d1 < 10 && d2 < 10 && d3 < 10
    ensures var y := 100 * (10 * d0 + d1) + (10 * d2 + d3);
      && y / 1000 == d0 && y / 100 % 10 == d1 && y / 10 % 10 == d2 && y % 10 == d3
      && (10 * d0 + d1) / 10 == d0 && (10 * d0 + d1) % 10 == d1
      && (10 * d2 + d3) / 10 == d2 && (10 * d2 + d3) % 10 == d3
  {
    var y := 1000 * d0 + 100 * d1 + 10 * d2 + d3;
    assert y / 10 == 100 * d0 + 10 * d1 + d2;
    assert y / 100 == 10 * d0 + d1;
    assert y / 1000 == d0;
  }

  /** Test vector: 2024-12-31 23:59:59 UTC is "2024-12-31T23:59:59Z", and
      that text reads back as the same instant. */
  lemma TimestampVectorEndOf2024()
    ensures FormatRFC3339(DateTime(2024, 12, 31, 23, 59, 59)) == "2024-12-31T23:59:59Z"
    ensures ParseRFC3339("2024-12-31T23:59:59Z") == Some(DateTime(2024, 12, 31, 23, 59, 59))
  {
    var t := DateTime(2024, 12, 31, 23, 59, 59);
    assert FormatRFC3339(t) == "2024-12-31T23:59:59Z";
    TimestampRoundTrip(t);
  }

  /** Test vector: the first instant of 2025 is "2025-01-01T00:00:00Z". */
  lemma TimestampVectorStartOf2025()
    ensures FormatRFC3339(DateTime(2025, 1, 1, 0, 0, 0)) == "2025-01-01T00:00:00Z"
  {
  }

  /** Test vector: 2024-12-30 23:59:59 UTC is "2024-12-30T23:59:59Z". */
  lemma TimestampVectorDec30()
    ensures FormatRFC3339(DateTime(2024, 12, 30, 23, 59, 59)) == "2024-12-30T23:59:59Z"
  {
  }

  /** Test vector: 2025-12-31 23:59:59 UTC is "2025-12-31T23:59:59Z". */
  lemma TimestampVectorEndOf2025()
    ensures FormatRFC3339(DateTime(2025, 12, 31, 23, 59, 59)) == "2025-12-31T23:59:59Z"
  {
  }

  /** Text without the 'Z' suffix is rejected. */
  lemma TimestampRejectsMissingZone()
    ensures ParseRFC3339("2024-12-31T23:59:59") == None
  {
  }

  /** The text of February 29 of 2023 has the layout, although no such
      day exists. */
  lemma Feb29Of2023Text()
    ensures FormatRFC3339(DateTime(2023, 2, 29, 0, 0, 0)) == "2023-02-29T00:00:00Z"
  {
  }

  /** February 29 of the common year 2023 is rejected. */
  lemma TimestampRejectsFeb29()
    ensures ParseRFC3339("2023-02-29T00:00:00Z") == None
  {
    var t := DateTime(2023, 2, 29, 0, 0, 0);
    Feb29Of2023Text();
    assert !ValidDateTime(t);
    ParseOfFormat(t);
  }
}
