/** A possibly partial calendar date, carried as a `{day, month, year}`
    object of JSON numbers. The year is required whenever the date object
    is present; month and day default to 0, meaning unspecified. */
module CivilDate {
  import opened Wrappers
  import opened JsonTree
  import opened DecimalInt
  import opened FieldCodec

  datatype Date = Date(year: int64, month: int64, day: int64)

  /** The zero date: no publication date recorded. */
  const ZeroDate := Date(0, 0, 0)

  /** A non-zero date writes all three parts, in the order day, month,
      year. */
  function EncodeDate(d: Date): (j: Json)
    ensures j.JObj? && |j.members| == 3
    ensures DistinctMemberKeys(j.members)
  {
    JObj([("day", JNum(d.day)), ("month", JNum(d.month)), ("year", JNum(d.year))])
  }

  /** The zero date is omitted; any other date is written whole. */
  function DateField(d: Date): (r: Option<Json>)
    ensures r.None? <==> d == ZeroDate
    ensures r.Some? ==> r.value == EncodeDate(d)
  {
    if d == ZeroDate then None else Some(EncodeDate(d))
  }

  /** A missing date is the zero date; a present one must be an object with
      a `year`, and every part must be a 64-bit JSON number. */
  function DecodeDate(key: string, v: Option<Json>): (r: Result<Date>)
    ensures v.None? ==> r == Ok(ZeroDate)
    ensures v.Some? && !v.value.JObj? ==> r == Err(TypeError(key))
    ensures v.Some? && v.value.JObj? && Field(v.value.members, "year").None? ==>
      r == Err(FormatError(key))
    ensures v.Some? && v.value.JObj? && Field(v.value.members, "year").Some? ==>
      (r.Ok? <==>
        DecodeNumber(key, Field(v.value.members, "year"), MinInt64, MaxInt64).Ok? &&
        DecodeNumber(key, Field(v.value.members, "month"), MinInt64, MaxInt64).Ok? &&
        DecodeNumber(key, Field(v.value.members, "day"), MinInt64, MaxInt64).Ok?)
    ensures r.Ok? && v.Some? ==>
      Field(v.value.members, "year") == Some(JNum(r.value.year)) &&
      DecodeNumber(key, Field(v.value.members, "month"), MinInt64, MaxInt64) == Ok(r.value.month) &&
      DecodeNumber(key, Field(v.value.members, "day"), MinInt64, MaxInt64) == Ok(r.value.day)
  {
    match v
    case None => Ok(ZeroDate)
    case Some(JObj(ms)) =>
      if Field(ms, "year").None? then Err(FormatError(key))
      else
        var year :- DecodeNumber(key, Field(ms, "year"), MinInt64, MaxInt64);
        var month :- DecodeNumber(key, Field(ms, "month"), MinInt64, MaxInt64);
        var day :- DecodeNumber(key, Field(ms, "day"), MinInt64, MaxInt64);
        Ok(Date(year, month, day))
    case Some(_) => Err(TypeError(key))
  }

  /** Every date, zero or not, is read back unchanged from what is written
      for it. */
  lemma DateRoundTrip(key: string, d: Date)
    ensures DecodeDate(key, DateField(d)) == Ok(d)
  {
    if d != ZeroDate {
      var ms := EncodeDate(d).members;
      FieldOfMember(ms, 0);
      FieldOfMember(ms, 1);
      FieldOfMember(ms, 2);
    }
  }

  /** A year alone, or a year and month, is a valid partial date whose
      missing parts are 0; a month and day without a year is not. */
  lemma DatePresenceLaw(key: string, y: int64, m: int64, d: int64)
    ensures DecodeDate(key, Some(JObj([("year", JNum(y))]))) == Ok(Date(y, 0, 0))
    ensures DecodeDate(key, Some(JObj([("year", JNum(y)), ("month", JNum(m))]))) == Ok(Date(y, m, 0))
    ensures DecodeDate(key, Some(JObj([("month", JNum(m)), ("day", JNum(d))]))) == Err(FormatError(key))
  {
    FieldOfMember([("year", JNum(y))], 0);
    var ym := [("year", JNum(y)), ("month", JNum(m))];
    FieldOfMember(ym, 0);
    FieldOfMember(ym, 1);
    FieldOfMissingKey(ym, "day");
    FieldOfMissingKey([("year", JNum(y))], "month");
    FieldOfMissingKey([("year", JNum(y))], "day");
    FieldOfMissingKey([("month", JNum(m)), ("day", JNum(d))], "year");
  }

  /** The parts of a date may come in any order. */
  lemma DateVector(key: string)
    ensures DecodeDate(key, Some(JObj([("year", JNum(2023)), ("month", JNum(10)), ("day", JNum(26))]))) ==
      Ok(Date(2023, 10, 26))
  {
    var ms := [("year", JNum(2023)), ("month", JNum(10)), ("day", JNum(26))];
    FieldOfMember(ms, 0);
    FieldOfMember(ms, 1);
    FieldOfMember(ms, 2);
  }
}
