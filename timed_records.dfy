/** The configuration for creating or updating cached content, cut down to
    the field the marshal and unmarshal tables exercise: the expiry
    instant, written as RFC 3339 text and omitted when no expiry is set. */
module CachedContentConfigCodec {
  import opened Wrappers
  import opened JsonTree
  import opened TimestampCodec
  import opened FieldCodec

  datatype CachedContentConfig = CachedContentConfig(expireTime: Timestamp)

  const EmptyConfig := CachedContentConfig(ZeroTime)

  function EncodeCachedContentConfig(c: CachedContentConfig): (j: Json)
    ensures j.JObj? && |j.members| <= 1
    ensures Field(j.members, "expireTime") == TimestampField(c.expireTime)
  {
    FieldOfEmit(["expireTime"], [TimestampField(c.expireTime)], 0);
    JObj(Emit(["expireTime"], [TimestampField(c.expireTime)]))
  }

  function DecodeCachedContentConfig(j: Json): (r: Result<CachedContentConfig>)
    ensures j.JNull? ==> r == Ok(EmptyConfig)
    ensures !j.JNull? && !j.JObj? ==> r == Err(NotAnObject)
    ensures j.JObj? ==> r.Ok? == DecodeTimestamp("expireTime", Field(j.members, "expireTime")).Ok?
    ensures j.JObj? && r.Ok? ==> DecodeTimestamp("expireTime", Field(j.members, "expireTime")) == Ok(r.value.expireTime)
  {
    match j
    case JNull => Ok(EmptyConfig)
    case JObj(ms) =>
      var expireTime :- DecodeTimestamp("expireTime", Field(ms, "expireTime"));
      Ok(CachedContentConfig(expireTime))
    case _ => Err(NotAnObject)
  }

  lemma CachedContentConfigRoundTrip(c: CachedContentConfig)
    ensures DecodeCachedContentConfig(EncodeCachedContentConfig(c)) == Ok(c)
  {
    FieldOfEmit(["expireTime"], [TimestampField(c.expireTime)], 0);
    TimestampFieldRoundTrip("expireTime", c.expireTime);
  }

  lemma CachedContentConfigVectors()
    ensures EncodeCachedContentConfig(EmptyConfig) == JObj([])
    ensures DecodeCachedContentConfig(JObj([])) == Ok(EmptyConfig)
    ensures EncodeCachedContentConfig(CachedContentConfig(DateTime(2024, 12, 31, 23, 59, 59))) ==
      JObj([("expireTime", JStr("2024-12-31T23:59:59Z"))])
    ensures DecodeCachedContentConfig(JObj([("expireTime", JStr("2024-12-31T23:59:59Z"))])) ==
      Ok(CachedContentConfig(DateTime(2024, 12, 31, 23, 59, 59)))
  {
    TimestampVectorEndOf2024();
    CachedContentConfigRoundTrip(CachedContentConfig(DateTime(2024, 12, 31, 23, 59, 59)));
  }
}

/** A response of content generation, cut down to the field the tables
    exercise: its creation instant, the field with a custom codec. */
module GenerateContentResponseCodec {
  import opened Wrappers
  import opened JsonTree
  import opened TimestampCodec
  import opened FieldCodec

  datatype GenerateContentResponse = GenerateContentResponse(createTime: Timestamp)

  const EmptyResponse := GenerateContentResponse(ZeroTime)

  function EncodeGenerateContentResponse(g: GenerateContentResponse): (j: Json)
    ensures j.JObj? && |j.members| <= 1
    ensures Field(j.members, "createTime") == TimestampField(g.createTime)
  {
    FieldOfEmit(["createTime"], [TimestampField(g.createTime)], 0);
    JObj(Emit(["createTime"], [TimestampField(g.createTime)]))
  }

  function DecodeGenerateContentResponse(j: Json): (r: Result<GenerateContentResponse>)
    ensures j.JNull? ==> r == Ok(EmptyResponse)
    ensures !j.JNull? && !j.JObj? ==> r == Err(NotAnObject)
    ensures j.JObj? ==> r.Ok? == DecodeTimestamp("createTime", Field(j.members, "createTime")).Ok?
    ensures j.JObj? && r.Ok? ==> DecodeTimestamp("createTime", Field(j.members, "createTime")) == Ok(r.value.createTime)
  {
    match j
    case JNull => Ok(EmptyResponse)
    case JObj(ms) =>
      var createTime :- DecodeTimestamp("createTime", Field(ms, "createTime"));
      Ok(GenerateContentResponse(createTime))
    case _ => Err(NotAnObject)
  }

  lemma GenerateContentResponseRoundTrip(g: GenerateContentResponse)
    ensures DecodeGenerateContentResponse(EncodeGenerateContentResponse(g)) == Ok(g)
  {
    FieldOfEmit(["createTime"], [TimestampField(g.createTime)], 0);
    TimestampFieldRoundTrip("createTime", g.createTime);
  }

  lemma GenerateContentResponseVectors()
    ensures EncodeGenerateContentResponse(EmptyResponse) == JObj([])
    ensures EncodeGenerateContentResponse(GenerateContentResponse(DateTime(2024, 12, 31, 23, 59, 59))) ==
      JObj([("createTime", JStr("2024-12-31T23:59:59Z"))])
  {
    TimestampVectorEndOf2024();
  }
}

/** The model produced by a tuning job, cut down to the fields the tables
    exercise: its creation and last-update instants, each omitted when it
    is not set. */
module TunedModelInfoCodec {
  import opened Wrappers
  import opened JsonTree
  import opened TimestampCodec
  import opened FieldCodec

  datatype TunedModelInfo = TunedModelInfo(createTime: Timestamp, updateTime: Timestamp)

  const EmptyTunedModelInfo := TunedModelInfo(ZeroTime, ZeroTime)

  const TunedModelInfoKeys: seq<string> := ["createTime", "updateTime"]

  function EncodeTunedModelInfo(t: TunedModelInfo): (j: Json)
    ensures j.JObj? && |j.members| <= |TunedModelInfoKeys|
    ensures Field(j.members, "createTime") == TimestampField(t.createTime)
    ensures Field(j.members, "updateTime") == TimestampField(t.updateTime)
  {
    FieldOfEmit(TunedModelInfoKeys, [TimestampField(t.createTime), TimestampField(t.updateTime)], 0);
    FieldOfEmit(TunedModelInfoKeys, [TimestampField(t.createTime), TimestampField(t.updateTime)], 1);
    JObj(Emit(TunedModelInfoKeys, [TimestampField(t.createTime), TimestampField(t.updateTime)]))
  }

  function DecodeTunedModelInfo(j: Json): (r: Result<TunedModelInfo>)
    ensures j.JNull? ==> r == Ok(EmptyTunedModelInfo)
    ensures !j.JNull? && !j.JObj? ==> r == Err(NotAnObject)
    ensures j.JObj? ==>
              (r.Ok? <==> DecodeTimestamp("createTime", Field(j.members, "createTime")).Ok? &&
                          DecodeTimestamp("updateTime", Field(j.members, "updateTime")).Ok?)
    ensures j.JObj? && r.Ok? ==>
              DecodeTimestamp("createTime", Field(j.members, "createTime")) == Ok(r.value.createTime) &&
              DecodeTimestamp("updateTime", Field(j.members, "updateTime")) == Ok(r.value.updateTime)
  {
    match j
    case JNull => Ok(EmptyTunedModelInfo)
    case JObj(ms) =>
      var createTime :- DecodeTimestamp("createTime", Field(ms, "createTime"));
      var updateTime :- DecodeTimestamp("updateTime", Field(ms, "updateTime"));
      Ok(TunedModelInfo(createTime, updateTime))
    case _ => Err(NotAnObject)
  }

  lemma TunedModelInfoRoundTrip(t: TunedModelInfo)
    ensures DecodeTunedModelInfo(EncodeTunedModelInfo(t)) == Ok(t)
  {
    var vs := [TimestampField(t.createTime), TimestampField(t.updateTime)];
    FieldOfEmit(TunedModelInfoKeys, vs, 0);
    FieldOfEmit(TunedModelInfoKeys, vs, 1);
    TimestampFieldRoundTrip("createTime", t.createTime);
    TimestampFieldRoundTrip("updateTime", t.updateTime);
  }

  lemma TunedModelInfoVectors()
    ensures EncodeTunedModelInfo(EmptyTunedModelInfo) == JObj([])
    ensures EncodeTunedModelInfo(TunedModelInfo(DateTime(2024, 12, 31, 23, 59, 59), DateTime(2024, 12, 30, 23, 59, 59))) ==
      JObj([("createTime", JStr("2024-12-31T23:59:59Z")), ("updateTime", JStr("2024-12-30T23:59:59Z"))])
  {
    TimestampVectorEndOf2024();
    TimestampVectorDec30();
    assert EmitFirst(["createTime", "updateTime"], [Some(JStr("2024-12-31T23:59:59Z")), Some(JStr("2024-12-30T23:59:59Z"))], 2) ==
      [("createTime", JStr("2024-12-31T23:59:59Z")), ("updateTime", JStr("2024-12-30T23:59:59Z"))];
  }
}
