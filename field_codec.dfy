/** The field kinds the record codecs are built from. Each kind has an
    encoder, which decides what is written for the field (`None` when it
    is omitted), and a decoder, which reads the field's value as the record
    decoder found it (`None` when the key is missing or null). */
module FieldCodec {
  import opened Wrappers
  import opened JsonTree
  import opened DecimalInt
  import opened DurationCodec
  import opened TimestampCodec

  /** Plain strings (names, URIs, enum values): the default mapping, with
      the empty string omitted. */
  function StringField(s: string): (r: Option<Json>)
    ensures r.None? <==> s == ""
    ensures r.Some? ==> r.value == JStr(s)
  {
    if s == "" then None else Some(JStr(s))
  }

  function DecodeString(key: string, v: Option<Json>): (r: Result<string>)
    ensures r.Ok? <==> v.None? || v.value.JStr?
    ensures v.None? ==> r == Ok("")
    ensures r.Ok? && v.Some? ==> r.value == v.value.s
  {
    match v
    case None => Ok("")
    case Some(JStr(s)) => Ok(s)
    case Some(_) => Err(TypeError(key))
  }

  /** Optional 64-bit integers (pointer fields): a decimal string when
      present, omitted when absent. Absence is not zero: a present zero is
      written as "0". */
  function OptionalInt64Field(o: Option<int64>): (r: Option<Json>)
    ensures r.None? <==> o.None?
    ensures r.Some? ==> r.value.JStr? && IsCanonical(r.value.s) && ParseInt(r.value.s) == o
  {
    if o.Some? then ParseFormat(o.value); Some(JStr(FormatInt(o.value))) else None
  }

  /** A missing key leaves the field absent; a present key must hold a
      string that parses, and anything else fails the whole record. */
  function DecodeOptionalInt64(key: string, v: Option<Json>): (r: Result<Option<int64>>)
    ensures r.Ok? <==> v.None? || (v.value.JStr? && ParseInt(v.value.s).Some?)
    ensures v.None? ==> r == Ok(None)
    ensures r.Ok? && v.Some? ==> r.value == ParseInt(v.value.s)
    ensures r.Err? && v.value.JStr? ==> r.error == FormatError(key)
  {
    match v
    case None => Ok(None)
    case Some(JStr(s)) =>
      (match ParseInt(s)
       case Some(n) => Ok(Some(n))
       case None => Err(FormatError(key)))
    case Some(_) => Err(TypeError(key))
  }

  /** 64-bit integers held by value: a decimal string, omitted when zero. */
  function Int64Field(n: int64): (r: Option<Json>)
    ensures r.None? <==> n == 0
    ensures r.Some? ==> r.value.JStr? && IsCanonical(r.value.s) && ParseInt(r.value.s) == Some(n)
  {
    if n == 0 then None else ParseFormat(n); Some(JStr(FormatInt(n)))
  }

  function DecodeInt64(key: string, v: Option<Json>): (r: Result<int64>)
    ensures r.Ok? <==> v.None? || (v.value.JStr? && ParseInt(v.value.s).Some?)
    ensures v.None? ==> r == Ok(0)
    ensures r.Ok? && v.Some? ==> Some(r.value) == ParseInt(v.value.s)
    ensures r.Err? && v.value.JStr? ==> r.error == FormatError(key)
  {
    match DecodeOptionalInt64(key, v)
    case Ok(o) => Ok(if o.Some? then o.value else 0)
    case Err(e) => Err(e)
  }

  /** Integers written as JSON numbers (Go int and int32 fields), omitted
      when zero. */
  function NumberField(n: int): (r: Option<Json>)
    ensures r.None? <==> n == 0
    ensures r.Some? ==> r.value == JNum(n)
  {
    if n == 0 then None else Some(JNum(n))
  }

  /** A JSON number that fits the field's range [lo, hi]; a number out of
      range or a value of another kind fails. */
  function DecodeNumber(key: string, v: Option<Json>, lo: int, hi: int): (r: Result<int>)
    requires lo <= 0 <= hi
    ensures r.Ok? <==> v.None? || (v.value.JNum? && lo <= v.value.n <= hi)
    ensures r.Ok? ==> lo <= r.value <= hi
    ensures v.None? ==> r == Ok(0)
    ensures r.Ok? && v.Some? ==> r.value == v.value.n
  {
    match v
    case None => Ok(0)
    case Some(JNum(n)) => if lo <= n <= hi then Ok(n) else Err(TypeError(key))
    case Some(_) => Err(TypeError(key))
  }

  /** Durations as "<seconds>s", omitted when zero. */
  function DurationField(d: Duration, written: bool): (r: Option<Json>)
    ensures r.None? <==> !written
    ensures r.Some? ==> r.value == JStr(FormatDuration(d))
  {
    if written then Some(JStr(FormatDuration(d))) else None
  }

  function DecodeDuration(key: string, v: Option<Json>): (r: Result<Duration>)
    ensures r.Ok? <==> v.None? || (v.value.JStr? && ParseDuration(v.value.s).Some?)
    ensures v.None? ==> r == Ok(0)
    ensures r.Ok? && v.Some? ==> Some(r.value) == ParseDuration(v.value.s)
    ensures r.Err? && v.value.JStr? ==> r.error == FormatError(key)
  {
    match v
    case None => Ok(0)
    case Some(JStr(s)) =>
      (match ParseDuration(s)
       case Some(d) => Ok(d)
       case None => Err(FormatError(key)))
    case Some(_) => Err(TypeError(key))
  }

  /** Timestamps as RFC 3339 text, omitted when no timestamp is recorded
      (Go's zero time). */
  function TimestampField(t: Timestamp): (r: Option<Json>)
    ensures r.None? <==> t == ZeroTime
    ensures r.Some? ==> r.value.JStr? && IsRFC3339Shape(r.value.s)
  {
    if t == ZeroTime then None else FormatShape(t); Some(JStr(FormatRFC3339(t)))
  }

  function DecodeTimestamp(key: string, v: Option<Json>): (r: Result<Timestamp>)
    ensures r.Ok? <==> v.None? || (v.value.JStr? && ParseRFC3339(v.value.s).Some?)
    ensures v.None? ==> r == Ok(ZeroTime)
    ensures r.Ok? && v.Some? ==> Some(r.value) == ParseRFC3339(v.value.s)
    ensures r.Err? && v.value.JStr? ==> r.error == FormatError(key)
  {
    match v
    case None => Ok(ZeroTime)
    case Some(JStr(s)) =>
      (match ParseRFC3339(s)
       case Some(t) => Ok(t)
       case None => Err(FormatError(key)))
    case Some(_) => Err(TypeError(key))
  }

  /** Field-level round trips: what an encoder decides for a key, read back
      by the matching decoder, is the original value. */
  lemma StringFieldRoundTrip(key: string, s: string)
    ensures DecodeString(key, StringField(s)) == Ok(s)
  {
  }

  lemma OptionalInt64FieldRoundTrip(key: string, o: Option<int64>)
    ensures DecodeOptionalInt64(key, OptionalInt64Field(o)) == Ok(o)
  {
    if o.Some? {
      ParseFormat(o.value);
    }
  }

  lemma Int64FieldRoundTrip(key: string, n: int64)
    ensures DecodeInt64(key, Int64Field(n)) == Ok(n)
  {
    ParseFormat(n);
  }

  lemma NumberFieldRoundTrip(key: string, n: int, lo: int, hi: int)
    requires lo <= 0 <= hi && lo <= n <= hi
    ensures DecodeNumber(key, NumberField(n), lo, hi) == Ok(n)
  {
  }

  /** A duration is read back unchanged whether it was written or, being
      zero, omitted. */
  lemma DurationFieldRoundTrip(key: string, d: Duration, written: bool)
    requires written || d == 0
    ensures DecodeDuration(key, DurationField(d, written)) == Ok(d)
  {
    DurationRoundTrip(d);
  }

  lemma TimestampFieldRoundTrip(key: string, t: Timestamp)
    ensures DecodeTimestamp(key, TimestampField(t)) == Ok(t)
  {
    TimestampRoundTrip(t);
  }
}
