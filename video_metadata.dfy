/** The offsets of a video clip: where it starts and where it ends, as
    durations from the start of the video. */
module VideoMetadataCodec {
  import opened Wrappers
  import opened JsonTree
  import opened DurationCodec
  import opened FieldCodec

  datatype VideoMetadata = VideoMetadata(startOffset: Duration, endOffset: Duration)

  const EmptyVideoMetadata := VideoMetadata(0, 0)

  /** The end offset is written first, and only when it is non-zero. The
      start offset is written when either offset is non-zero, so an end
      without a start comes out with an explicit "0s" start. */
  const VideoMetadataKeys: seq<string> := ["endOffset", "startOffset"]

  function VideoMetadataFields(v: VideoMetadata): (vs: seq<Option<Json>>)
    ensures |vs| == |VideoMetadataKeys|
  {
    [ DurationField(v.endOffset, v.endOffset != 0),
      DurationField(v.startOffset, v.startOffset != 0 || v.endOffset != 0) ]
  }

  function EncodeVideoMetadata(v: VideoMetadata): (j: Json)
    ensures j.JObj? && |j.members| <= |VideoMetadataKeys|
    ensures Field(j.members, "endOffset") == DurationField(v.endOffset, v.endOffset != 0)
    ensures Field(j.members, "startOffset") == DurationField(v.startOffset, v.startOffset != 0 || v.endOffset != 0)
  {
    FieldOfEmit(VideoMetadataKeys, VideoMetadataFields(v), 0);
    FieldOfEmit(VideoMetadataKeys, VideoMetadataFields(v), 1);
    JObj(Emit(VideoMetadataKeys, VideoMetadataFields(v)))
  }

  function DecodeVideoMetadata(j: Json): (r: Result<VideoMetadata>)
    ensures j.JNull? ==> r == Ok(EmptyVideoMetadata)
    ensures !j.JNull? && !j.JObj? ==> r == Err(NotAnObject)
    ensures j.JObj? ==>
              (r.Ok? <==> DecodeDuration("startOffset", Field(j.members, "startOffset")).Ok? &&
                          DecodeDuration("endOffset", Field(j.members, "endOffset")).Ok?)
    ensures j.JObj? && r.Ok? ==>
              DecodeDuration("startOffset", Field(j.members, "startOffset")) == Ok(r.value.startOffset) &&
              DecodeDuration("endOffset", Field(j.members, "endOffset")) == Ok(r.value.endOffset)
  {
    match j
    case JNull => Ok(EmptyVideoMetadata)
    case JObj(ms) =>
      var startOffset :- DecodeDuration("startOffset", Field(ms, "startOffset"));
      var endOffset :- DecodeDuration("endOffset", Field(ms, "endOffset"));
      Ok(VideoMetadata(startOffset, endOffset))
    case _ => Err(NotAnObject)
  }

  /** Which keys an encoded clip carries, stated on its own: the end offset
      exactly when it is non-zero, the start offset exactly when either
      offset is. */
  lemma VideoMetadataKeysWritten(v: VideoMetadata)
    ensures Field(EncodeVideoMetadata(v).members, "endOffset").Some? <==> v.endOffset != 0
    ensures Field(EncodeVideoMetadata(v).members, "startOffset").Some? <==>
              v.startOffset != 0 || v.endOffset != 0
  {
    var vs := VideoMetadataFields(v);
    FieldOfEmit(VideoMetadataKeys, vs, 0);
    FieldOfEmit(VideoMetadataKeys, vs, 1);
  }

  lemma VideoMetadataRoundTrip(v: VideoMetadata)
    ensures DecodeVideoMetadata(EncodeVideoMetadata(v)) == Ok(v)
  {
    DurationFieldRoundTrip("endOffset", v.endOffset, v.endOffset != 0);
    DurationFieldRoundTrip("startOffset", v.startOffset, v.startOffset != 0 || v.endOffset != 0);
  }

  lemma VideoMetadataIgnoresUnknownKey(ms: seq<Member>, k: string, v: Json)
    requires k != "startOffset" && k != "endOffset"
    ensures DecodeVideoMetadata(JObj(ms + [(k, v)])) == DecodeVideoMetadata(JObj(ms))
  {
    FieldIgnoresOtherKey(ms, k, v, "startOffset");
    FieldIgnoresOtherKey(ms, k, v, "endOffset");
  }

  lemma VideoMetadataEncodeVectors()
    ensures EncodeVideoMetadata(EmptyVideoMetadata) == JObj([])
    ensures EncodeVideoMetadata(VideoMetadata(10, 20 * SecondsPerHour)) ==
      JObj([("endOffset", JStr("72000s")), ("startOffset", JStr("10s"))])
    ensures EncodeVideoMetadata(VideoMetadata(5, 0)) == JObj([("startOffset", JStr("5s"))])
    ensures EncodeVideoMetadata(VideoMetadata(0, 15)) ==
      JObj([("endOffset", JStr("15s")), ("startOffset", JStr("0s"))])
  {
    DurationVectors();
    DurationSecondsVectors();
    assert EmitFirst(["endOffset", "startOffset"], [Some(JStr("72000s")), Some(JStr("10s"))], 2) ==
      [("endOffset", JStr("72000s")), ("startOffset", JStr("10s"))];
    assert EmitFirst(["endOffset", "startOffset"], [None, Some(JStr("5s"))], 2) ==
      [("startOffset", JStr("5s"))];
    assert EmitFirst(["endOffset", "startOffset"], [Some(JStr("15s")), Some(JStr("0s"))], 2) ==
      [("endOffset", JStr("15s")), ("startOffset", JStr("0s"))];
  }

  /** Test vector: a clip with both offsets reads back as both. */
  lemma VideoMetadataDecodeBoth()
    ensures DecodeVideoMetadata(JObj([("startOffset", JStr("10s")), ("endOffset", JStr("20s"))])) ==
      Ok(VideoMetadata(10, 20))
  {
    DurationVectors();
    DurationSecondsVectors();
    var both := [("startOffset", JStr("10s")), ("endOffset", JStr("20s"))];
    FieldOfMember(both, 0);
    FieldOfMember(both, 1);
  }

  /** Test vectors: a missing offset reads as zero. */
  lemma VideoMetadataDecodeStartOnly()
    ensures DecodeVideoMetadata(JObj([])) == Ok(EmptyVideoMetadata)
    ensures DecodeVideoMetadata(JObj([("startOffset", JStr("5s"))])) == Ok(VideoMetadata(5, 0))
  {
    DurationRoundTrip(5);
    assert FormatDuration(5) == "5s";
  }

  lemma VideoMetadataDecodeEndOnly()
    ensures DecodeVideoMetadata(JObj([("endOffset", JStr("15s"))])) == Ok(VideoMetadata(0, 15))
  {
    DurationRoundTrip(15);
    assert FormatDuration(15) == "15s";
  }

  /** An offset that is not a duration fails the whole decode. */
  lemma VideoMetadataRejects()
    ensures DecodeVideoMetadata(JObj([("startOffset", JStr("abc"))])).Err?
    ensures DecodeVideoMetadata(JObj([("endOffset", JStr("xyz"))])).Err?
  {
    DurationVectors();
  }
}
