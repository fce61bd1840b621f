/** The context window compression settings of a live session: the token
    count that triggers compression, and the sliding window that keeps the
    most recent turns. Both counts are optional 64-bit integers carried as
    decimal strings. */
module ContextWindowCodec {
  import opened Wrappers
  import opened JsonTree
  import opened DecimalInt
  import opened FieldCodec

  datatype SlidingWindow = SlidingWindow(targetTokens: Option<int64>)

  datatype ContextWindowCompressionConfig =
    ContextWindowCompressionConfig(triggerTokens: Option<int64>, slidingWindow: Option<SlidingWindow>)

  const EmptySlidingWindow := SlidingWindow(None)

  const EmptyCompressionConfig := ContextWindowCompressionConfig(None, None)

  function EncodeSlidingWindow(w: SlidingWindow): (j: Json)
    ensures j.JObj? && |j.members| <= 1
    ensures Field(j.members, "targetTokens") == OptionalInt64Field(w.targetTokens)
  {
    FieldOfEmit(["targetTokens"], [OptionalInt64Field(w.targetTokens)], 0);
    JObj(Emit(["targetTokens"], [OptionalInt64Field(w.targetTokens)]))
  }

  function DecodeSlidingWindow(j: Json): (r: Result<SlidingWindow>)
    ensures j.JNull? ==> r == Ok(EmptySlidingWindow)
    ensures !j.JNull? && !j.JObj? ==> r == Err(NotAnObject)
    ensures j.JObj? ==> r.Ok? == DecodeOptionalInt64("targetTokens", Field(j.members, "targetTokens")).Ok?
    ensures j.JObj? && r.Ok? ==>
              DecodeOptionalInt64("targetTokens", Field(j.members, "targetTokens")) == Ok(r.value.targetTokens)
  {
    match j
    case JNull => Ok(EmptySlidingWindow)
    case JObj(ms) =>
      var targetTokens :- DecodeOptionalInt64("targetTokens", Field(ms, "targetTokens"));
      Ok(SlidingWindow(targetTokens))
    case _ => Err(NotAnObject)
  }

  lemma SlidingWindowRoundTrip(w: SlidingWindow)
    ensures DecodeSlidingWindow(EncodeSlidingWindow(w)) == Ok(w)
  {
    FieldOfEmit(["targetTokens"], [OptionalInt64Field(w.targetTokens)], 0);
    OptionalInt64FieldRoundTrip("targetTokens", w.targetTokens);
  }

  /** The sliding window is a nested object, omitted when absent. */
  function SlidingWindowField(w: Option<SlidingWindow>): Option<Json> {
    if w.Some? then Some(EncodeSlidingWindow(w.value)) else None
  }

  /** A missing or null window is absent; a present one must decode. */
  function DecodeSlidingWindowField(v: Option<Json>): (r: Result<Option<SlidingWindow>>)
    ensures v.None? ==> r == Ok(None)
    ensures v.Some? ==> r.Ok? == DecodeSlidingWindow(v.value).Ok?
    ensures r.Ok? && v.Some? ==> r.value == Some(DecodeSlidingWindow(v.value).value)
  {
    match v
    case None => Ok(None)
    case Some(w) =>
      var window :- DecodeSlidingWindow(w);
      Ok(Some(window))
  }

  /** The trigger is written before the window. */
  const CompressionConfigKeys: seq<string> := ["triggerTokens", "slidingWindow"]

  function CompressionConfigFields(c: ContextWindowCompressionConfig): (vs: seq<Option<Json>>)
    ensures |vs| == |CompressionConfigKeys|
  {
    [OptionalInt64Field(c.triggerTokens), SlidingWindowField(c.slidingWindow)]
  }

  function EncodeCompressionConfig(c: ContextWindowCompressionConfig): (j: Json)
    ensures j.JObj? && |j.members| <= |CompressionConfigKeys|
    ensures Field(j.members, "triggerTokens") == OptionalInt64Field(c.triggerTokens)
    ensures Field(j.members, "slidingWindow") == SlidingWindowField(c.slidingWindow)
  {
    FieldOfEmit(CompressionConfigKeys, CompressionConfigFields(c), 0);
    FieldOfEmit(CompressionConfigKeys, CompressionConfigFields(c), 1);
    JObj(Emit(CompressionConfigKeys, CompressionConfigFields(c)))
  }

  function DecodeCompressionConfig(j: Json): (r: Result<ContextWindowCompressionConfig>)
    ensures j.JNull? ==> r == Ok(EmptyCompressionConfig)
    ensures !j.JNull? && !j.JObj? ==> r == Err(NotAnObject)
    ensures j.JObj? ==>
              (r.Ok? <==> DecodeOptionalInt64("triggerTokens", Field(j.members, "triggerTokens")).Ok? &&
                          DecodeSlidingWindowField(Field(j.members, "slidingWindow")).Ok?)
    ensures j.JObj? && r.Ok? ==>
              DecodeOptionalInt64("triggerTokens", Field(j.members, "triggerTokens")) == Ok(r.value.triggerTokens) &&
              DecodeSlidingWindowField(Field(j.members, "slidingWindow")) == Ok(r.value.slidingWindow)
  {
    match j
    case JNull => Ok(EmptyCompressionConfig)
    case JObj(ms) =>
      var triggerTokens :- DecodeOptionalInt64("triggerTokens", Field(ms, "triggerTokens"));
      var slidingWindow :- DecodeSlidingWindowField(Field(ms, "slidingWindow"));
      Ok(ContextWindowCompressionConfig(triggerTokens, slidingWindow))
    case _ => Err(NotAnObject)
  }

  lemma CompressionConfigRoundTrip(c: ContextWindowCompressionConfig)
    ensures DecodeCompressionConfig(EncodeCompressionConfig(c)) == Ok(c)
  {
    var vs := CompressionConfigFields(c);
    FieldOfEmit(CompressionConfigKeys, vs, 0);
    FieldOfEmit(CompressionConfigKeys, vs, 1);
    OptionalInt64FieldRoundTrip("triggerTokens", c.triggerTokens);
    if c.slidingWindow.Some? {
      SlidingWindowRoundTrip(c.slidingWindow.value);
    }
  }

  lemma ContextWindowVectors()
    ensures EncodeSlidingWindow(EmptySlidingWindow) == JObj([])
    ensures EncodeSlidingWindow(SlidingWindow(Some(1024))) == JObj([("targetTokens", JStr("1024"))])
    ensures EncodeCompressionConfig(EmptyCompressionConfig) == JObj([])
    ensures EncodeCompressionConfig(ContextWindowCompressionConfig(Some(1024), Some(SlidingWindow(Some(1024))))) ==
      JObj([("triggerTokens", JStr("1024")), ("slidingWindow", JObj([("targetTokens", JStr("1024"))]))])
  {
    ParseIntVectors();
    assert EmitFirst(["triggerTokens", "slidingWindow"],
                     [Some(JStr("1024")), Some(JObj([("targetTokens", JStr("1024"))]))], 2) ==
      [("triggerTokens", JStr("1024")), ("slidingWindow", JObj([("targetTokens", JStr("1024"))]))];
  }
}
