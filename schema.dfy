/** The integer bounds of a Schema: six optional 64-bit integers, each
    carried as a decimal string and omitted when absent. The members are
    written in sorted key order. */
module SchemaCodec {
  import opened Wrappers
  import opened JsonTree
  import opened DecimalInt
  import opened FieldCodec

  datatype Schema = Schema(
    maxItems: Option<int64>,
    maxLength: Option<int64>,
    maxProperties: Option<int64>,
    minItems: Option<int64>,
    minLength: Option<int64>,
    minProperties: Option<int64>)

  const EmptySchema := Schema(None, None, None, None, None, None)

  /** The declared keys, in the order they are written. */
  const SchemaKeys: seq<string> :=
    ["maxItems", "maxLength", "maxProperties", "minItems", "minLength", "minProperties"]

  /** What is written for each declared key. */
  function SchemaFields(s: Schema): (vs: seq<Option<Json>>)
    ensures |vs| == |SchemaKeys|
  {
    [ OptionalInt64Field(s.maxItems), OptionalInt64Field(s.maxLength), OptionalInt64Field(s.maxProperties),
      OptionalInt64Field(s.minItems), OptionalInt64Field(s.minLength), OptionalInt64Field(s.minProperties) ]
  }

  function EncodeSchema(s: Schema): (j: Json)
    ensures j.JObj? && |j.members| <= |SchemaKeys|
    ensures Field(j.members, "maxItems") == OptionalInt64Field(s.maxItems)
    ensures Field(j.members, "maxLength") == OptionalInt64Field(s.maxLength)
    ensures Field(j.members, "maxProperties") == OptionalInt64Field(s.maxProperties)
    ensures Field(j.members, "minItems") == OptionalInt64Field(s.minItems)
    ensures Field(j.members, "minLength") == OptionalInt64Field(s.minLength)
    ensures Field(j.members, "minProperties") == OptionalInt64Field(s.minProperties)
  {
    FieldOfEmit(SchemaKeys, SchemaFields(s), 0);
    FieldOfEmit(SchemaKeys, SchemaFields(s), 1);
    FieldOfEmit(SchemaKeys, SchemaFields(s), 2);
    FieldOfEmit(SchemaKeys, SchemaFields(s), 3);
    FieldOfEmit(SchemaKeys, SchemaFields(s), 4);
    FieldOfEmit(SchemaKeys, SchemaFields(s), 5);
    JObj(Emit(SchemaKeys, SchemaFields(s)))
  }

  /** Each bound is decoded on its own; the first that fails fails the whole
      Schema. */
  function DecodeSchema(j: Json): (r: Result<Schema>)
    ensures j.JNull? ==> r == Ok(EmptySchema)
    ensures !j.JNull? && !j.JObj? ==> r == Err(NotAnObject)
    ensures j.JObj? ==>
      (r.Ok? <==>
        DecodeOptionalInt64("maxItems", Field(j.members, "maxItems")).Ok? &&
        DecodeOptionalInt64("maxLength", Field(j.members, "maxLength")).Ok? &&
        DecodeOptionalInt64("maxProperties", Field(j.members, "maxProperties")).Ok? &&
        DecodeOptionalInt64("minItems", Field(j.members, "minItems")).Ok? &&
        DecodeOptionalInt64("minLength", Field(j.members, "minLength")).Ok? &&
        DecodeOptionalInt64("minProperties", Field(j.members, "minProperties")).Ok?)
    ensures j.JObj? && r.Ok? ==>
              DecodeOptionalInt64("maxItems", Field(j.members, "maxItems")) == Ok(r.value.maxItems) &&
              DecodeOptionalInt64("maxLength", Field(j.members, "maxLength")) == Ok(r.value.maxLength) &&
              DecodeOptionalInt64("maxProperties", Field(j.members, "maxProperties")) == Ok(r.value.maxProperties) &&
              DecodeOptionalInt64("minItems", Field(j.members, "minItems")) == Ok(r.value.minItems) &&
              DecodeOptionalInt64("minLength", Field(j.members, "minLength")) == Ok(r.value.minLength) &&
              DecodeOptionalInt64("minProperties", Field(j.members, "minProperties")) == Ok(r.value.minProperties)
  {
    match j
    case JNull => Ok(EmptySchema)
    case JObj(ms) =>
      var maxItems :- DecodeOptionalInt64("maxItems", Field(ms, "maxItems"));
      var maxLength :- DecodeOptionalInt64("maxLength", Field(ms, "maxLength"));
      var maxProperties :- DecodeOptionalInt64("maxProperties", Field(ms, "maxProperties"));
      var minItems :- DecodeOptionalInt64("minItems", Field(ms, "minItems"));
      var minLength :- DecodeOptionalInt64("minLength", Field(ms, "minLength"));
      var minProperties :- DecodeOptionalInt64("minProperties", Field(ms, "minProperties"));
      Ok(Schema(maxItems, maxLength, maxProperties, minItems, minLength, minProperties))
    case _ => Err(NotAnObject)
  }

  /** Decoding reads the object only through its six fields: an object
      whose fields are what the encoder decides for `s` decodes to `s`,
      whatever other members it carries and in whatever order. */
  lemma DecodeSchemaOfFields(ms: seq<Member>, s: Schema)
    requires Field(ms, "maxItems") == OptionalInt64Field(s.maxItems)
    requires Field(ms, "maxLength") == OptionalInt64Field(s.maxLength)
    requires Field(ms, "maxProperties") == OptionalInt64Field(s.maxProperties)
    requires Field(ms, "minItems") == OptionalInt64Field(s.minItems)
    requires Field(ms, "minLength") == OptionalInt64Field(s.minLength)
    requires Field(ms, "minProperties") == OptionalInt64Field(s.minProperties)
    ensures DecodeSchema(JObj(ms)) == Ok(s)
  {
    OptionalInt64FieldRoundTrip("maxItems", s.maxItems);
    OptionalInt64FieldRoundTrip("maxLength", s.maxLength);
    OptionalInt64FieldRoundTrip("maxProperties", s.maxProperties);
    OptionalInt64FieldRoundTrip("minItems", s.minItems);
    OptionalInt64FieldRoundTrip("minLength", s.minLength);
    OptionalInt64FieldRoundTrip("minProperties", s.minProperties);
  }

  /** Every Schema survives encoding and decoding unchanged; in particular a
      bound that is present with value zero stays present. */
  lemma SchemaRoundTrip(s: Schema)
    ensures DecodeSchema(EncodeSchema(s)) == Ok(s)
  {
    var vs := SchemaFields(s);
    FieldOfEmit(SchemaKeys, vs, 0);
    FieldOfEmit(SchemaKeys, vs, 1);
    FieldOfEmit(SchemaKeys, vs, 2);
    FieldOfEmit(SchemaKeys, vs, 3);
    FieldOfEmit(SchemaKeys, vs, 4);
    FieldOfEmit(SchemaKeys, vs, 5);
    DecodeSchemaOfFields(Emit(SchemaKeys, vs), s);
  }

  lemma SchemaEmptyIsEmptyObject()
    ensures EncodeSchema(EmptySchema) == JObj([])
    ensures DecodeSchema(JObj([])) == Ok(EmptySchema)
  {
    EmitNothing(SchemaKeys, SchemaFields(EmptySchema), |SchemaKeys|);
  }

  /** A member whose key the Schema model does not declare changes nothing. */
  lemma SchemaIgnoresUnknownKey(ms: seq<Member>, k: string, v: Json)
    requires k !in SchemaKeys
    ensures DecodeSchema(JObj(ms + [(k, v)])) == DecodeSchema(JObj(ms))
  {
    FieldIgnoresOtherKey(ms, k, v, "maxItems");
    FieldIgnoresOtherKey(ms, k, v, "maxLength");
    FieldIgnoresOtherKey(ms, k, v, "maxProperties");
    FieldIgnoresOtherKey(ms, k, v, "minItems");
    FieldIgnoresOtherKey(ms, k, v, "minLength");
    FieldIgnoresOtherKey(ms, k, v, "minProperties");
  }

  lemma SchemaEncodeVector()
    ensures EncodeSchema(Schema(Some(8), Some(10), Some(4), Some(1), Some(5), Some(2))) ==
      JObj([("maxItems", JStr("8")), ("maxLength", JStr("10")), ("maxProperties", JStr("4")),
            ("minItems", JStr("1")), ("minLength", JStr("5")), ("minProperties", JStr("2"))])
  {
    assert FormatInt(10) == "10";
    assert EmitFirst(["maxItems", "maxLength", "maxProperties", "minItems", "minLength", "minProperties"],
      [Some(JStr("8")), Some(JStr("10")), Some(JStr("4")), Some(JStr("1")), Some(JStr("5")), Some(JStr("2"))], 6) ==
      [("maxItems", JStr("8")), ("maxLength", JStr("10")), ("maxProperties", JStr("4")),
       ("minItems", JStr("1")), ("minLength", JStr("5")), ("minProperties", JStr("2"))];
  }

  /** The members may come in any order; `maximum` and `minimum`, the
      floating-point bounds, are not part of this model and are read as
      undeclared keys. */
  lemma SchemaDecodeVector()
    ensures DecodeSchema(JObj([("maxLength", JStr("10")), ("minLength", JStr("5")),
                               ("minProperties", JStr("2")), ("maxProperties", JStr("4")),
                               ("maxItems", JStr("8")), ("minItems", JStr("1")),
                               ("maximum", JNum(10)), ("minimum", JNum(2))])) ==
      Ok(Schema(Some(8), Some(10), Some(4), Some(1), Some(5), Some(2)))
  {
    var ms := [("maxLength", JStr("10")), ("minLength", JStr("5")),
               ("minProperties", JStr("2")), ("maxProperties", JStr("4")),
               ("maxItems", JStr("8")), ("minItems", JStr("1")),
               ("maximum", JNum(10)), ("minimum", JNum(2))];
    assert FormatInt(10) == "10";
    FieldOfMember(ms, 0);
    FieldOfMember(ms, 1);
    FieldOfMember(ms, 2);
    FieldOfMember(ms, 3);
    FieldOfMember(ms, 4);
    FieldOfMember(ms, 5);
    DecodeSchemaOfFields(ms, Schema(Some(8), Some(10), Some(4), Some(1), Some(5), Some(2)));
  }

  /** A bound that is not a decimal string fails the whole decode. */
  lemma SchemaRejectsBadBound(k: string)
    requires k in SchemaKeys
    ensures DecodeSchema(JObj([(k, JStr("abc"))])).Err?
  {
    ParseRejectsNonDigit("abc", 0);
  }
}
