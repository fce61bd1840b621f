/** A tuning checkpoint: its identifier and the epoch and step it was taken
    at. Epoch and step are 64-bit integers carried as decimal strings and
    omitted when zero. */
module CheckpointCodec {
  import opened Wrappers
  import opened JsonTree
  import opened DecimalInt
  import opened FieldCodec

  datatype Checkpoint = Checkpoint(checkpointId: string, epoch: int64, step: int64)

  const EmptyCheckpoint := Checkpoint("", 0, 0)

  /** The declared keys, in the order they are written. */
  const CheckpointKeys: seq<string> := ["checkpointId", "epoch", "step"]

  /** What is written for each declared key. */
  function CheckpointFields(c: Checkpoint): (vs: seq<Option<Json>>)
    ensures |vs| == |CheckpointKeys|
  {
    [StringField(c.checkpointId), Int64Field(c.epoch), Int64Field(c.step)]
  }

  function EncodeCheckpoint(c: Checkpoint): (j: Json)
    ensures j.JObj? && |j.members| <= |CheckpointKeys|
    ensures Field(j.members, "checkpointId") == StringField(c.checkpointId)
    ensures Field(j.members, "epoch") == Int64Field(c.epoch)
    ensures Field(j.members, "step") == Int64Field(c.step)
  {
    FieldOfEmit(CheckpointKeys, CheckpointFields(c), 0);
    FieldOfEmit(CheckpointKeys, CheckpointFields(c), 1);
    FieldOfEmit(CheckpointKeys, CheckpointFields(c), 2);
    JObj(Emit(CheckpointKeys, CheckpointFields(c)))
  }

  /** A missing or null document leaves the zero checkpoint; a bad epoch or
      step fails the whole decode. */
  function DecodeCheckpoint(j: Json): (r: Result<Checkpoint>)
    ensures j.JNull? ==> r == Ok(EmptyCheckpoint)
    ensures !j.JNull? && !j.JObj? ==> r == Err(NotAnObject)
    ensures j.JObj? ==>
      (r.Ok? <==> DecodeString("checkpointId", Field(j.members, "checkpointId")).Ok? &&
                  DecodeInt64("epoch", Field(j.members, "epoch")).Ok? &&
                  DecodeInt64("step", Field(j.members, "step")).Ok?)
    ensures j.JObj? && r.Ok? ==>
      DecodeString("checkpointId", Field(j.members, "checkpointId")) == Ok(r.value.checkpointId) &&
      DecodeInt64("epoch", Field(j.members, "epoch")) == Ok(r.value.epoch) &&
      DecodeInt64("step", Field(j.members, "step")) == Ok(r.value.step)
  {
    match j
    case JNull => Ok(EmptyCheckpoint)
    case JObj(ms) =>
      var id :- DecodeString("checkpointId", Field(ms, "checkpointId"));
      var epoch :- DecodeInt64("epoch", Field(ms, "epoch"));
      var step :- DecodeInt64("step", Field(ms, "step"));
      Ok(Checkpoint(id, epoch, step))
    case _ => Err(NotAnObject)
  }

  /** Every checkpoint survives encoding and decoding unchanged. */
  lemma CheckpointRoundTrip(c: Checkpoint)
    ensures DecodeCheckpoint(EncodeCheckpoint(c)) == Ok(c)
  {
    var vs := CheckpointFields(c);
    FieldOfEmit(CheckpointKeys, vs, 0);
    FieldOfEmit(CheckpointKeys, vs, 1);
    FieldOfEmit(CheckpointKeys, vs, 2);
    StringFieldRoundTrip("checkpointId", c.checkpointId);
    Int64FieldRoundTrip("epoch", c.epoch);
    Int64FieldRoundTrip("step", c.step);
  }

  /** An empty checkpoint encodes to `{}`: zero epoch and step are omitted. */
  lemma CheckpointEmptyIsEmptyObject()
    ensures EncodeCheckpoint(EmptyCheckpoint) == JObj([])
    ensures DecodeCheckpoint(JObj([])) == Ok(EmptyCheckpoint)
  {
    EmitNothing(CheckpointKeys, CheckpointFields(EmptyCheckpoint), |CheckpointKeys|);
  }

  lemma CheckpointEncodeVector()
    ensures EncodeCheckpoint(Checkpoint("id123", 10, 100)) ==
      JObj([("checkpointId", JStr("id123")), ("epoch", JStr("10")), ("step", JStr("100"))])
  {
    assert FormatInt(10) == "10";
    assert FormatInt(100) == "100";
    assert EmitFirst(["checkpointId", "epoch", "step"], [Some(JStr("id123")), Some(JStr("10")), Some(JStr("100"))], 3) ==
      [("checkpointId", JStr("id123")), ("epoch", JStr("10")), ("step", JStr("100"))];
  }

  lemma CheckpointDecodeVector()
    ensures DecodeCheckpoint(JObj([("checkpointId", JStr("id123")), ("epoch", JStr("10")), ("step", JStr("100"))])) ==
      Ok(Checkpoint("id123", 10, 100))
  {
    CheckpointEncodeVector();
    CheckpointRoundTrip(Checkpoint("id123", 10, 100));
  }

  /** A non-numeric epoch or step fails the whole decode. */
  lemma CheckpointRejects()
    ensures DecodeCheckpoint(JObj([("epoch", JStr("abc"))])).Err?
    ensures DecodeCheckpoint(JObj([("step", JStr("xyz"))])).Err?
  {
    ParseRejectsNonDigit("abc", 0);
    ParseRejectsNonDigit("xyz", 0);
  }

  /** A member whose key the checkpoint does not declare changes nothing. */
  lemma CheckpointIgnoresUnknownKey(ms: seq<Member>, k: string, v: Json)
    requires k != "checkpointId" && k != "epoch" && k != "step"
    ensures DecodeCheckpoint(JObj(ms + [(k, v)])) == DecodeCheckpoint(JObj(ms))
  {
    FieldIgnoresOtherKey(ms, k, v, "checkpointId");
    FieldIgnoresOtherKey(ms, k, v, "epoch");
    FieldIgnoresOtherKey(ms, k, v, "step");
  }
}
