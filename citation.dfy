/** A citation of a source in generated content: the cited span, the
    source's licence, publication date, title and URI. */
module CitationCodec {
  import opened Wrappers
  import opened JsonTree
  import opened DecimalInt
  import opened FieldCodec
  import opened CivilDate

  datatype Citation = Citation(
    endIndex: int32,
    license: string,
    publicationDate: Date,
    startIndex: int32,
    title: string,
    uri: string)

  const EmptyCitation := Citation(0, "", ZeroDate, 0, "", "")

  /** The publication date is written first, then the remaining fields in
      declaration order. */
  const CitationKeys: seq<string> := ["publicationDate", "endIndex", "license", "startIndex", "title", "uri"]

  /** What is written for each declared key. */
  function CitationFields(c: Citation): (vs: seq<Option<Json>>)
    ensures |vs| == |CitationKeys|
  {
    [ DateField(c.publicationDate), NumberField(c.endIndex), StringField(c.license),
      NumberField(c.startIndex), StringField(c.title), StringField(c.uri) ]
  }

  function EncodeCitation(c: Citation): (j: Json)
    ensures j.JObj? && |j.members| <= |CitationKeys|
    ensures Field(j.members, "publicationDate") == DateField(c.publicationDate)
    ensures Field(j.members, "endIndex") == NumberField(c.endIndex)
    ensures Field(j.members, "license") == StringField(c.license)
    ensures Field(j.members, "startIndex") == NumberField(c.startIndex)
    ensures Field(j.members, "title") == StringField(c.title)
    ensures Field(j.members, "uri") == StringField(c.uri)
  {
    FieldOfEmit(CitationKeys, CitationFields(c), 0);
    FieldOfEmit(CitationKeys, CitationFields(c), 1);
    FieldOfEmit(CitationKeys, CitationFields(c), 2);
    FieldOfEmit(CitationKeys, CitationFields(c), 3);
    FieldOfEmit(CitationKeys, CitationFields(c), 4);
    FieldOfEmit(CitationKeys, CitationFields(c), 5);
    JObj(Emit(CitationKeys, CitationFields(c)))
  }

  /** The conversion of a citation's fields, as found in the object, into
      a Citation: each field is decoded on its own and the first failure
      fails the whole citation. */
  function CitationOfFields(publicationDate: Option<Json>, endIndex: Option<Json>, license: Option<Json>,
                            startIndex: Option<Json>, title: Option<Json>, uri: Option<Json>): (r: Result<Citation>)
    ensures r.Ok? <==>
      DecodeDate("publicationDate", publicationDate).Ok? &&
      DecodeNumber("endIndex", endIndex, MinInt32, MaxInt32).Ok? &&
      DecodeString("license", license).Ok? &&
      DecodeNumber("startIndex", startIndex, MinInt32, MaxInt32).Ok? &&
      DecodeString("title", title).Ok? &&
      DecodeString("uri", uri).Ok?
    ensures r.Ok? ==>
      DecodeDate("publicationDate", publicationDate) == Ok(r.value.publicationDate) &&
      DecodeNumber("endIndex", endIndex, MinInt32, MaxInt32) == Ok(r.value.endIndex as int) &&
      DecodeString("license", license) == Ok(r.value.license) &&
      DecodeNumber("startIndex", startIndex, MinInt32, MaxInt32) == Ok(r.value.startIndex as int) &&
      DecodeString("title", title) == Ok(r.value.title) &&
      DecodeString("uri", uri) == Ok(r.value.uri)
  {
    var endIndex :- DecodeNumber("endIndex", endIndex, MinInt32, MaxInt32);
    var license :- DecodeString("license", license);
    var date :- DecodeDate("publicationDate", publicationDate);
    var startIndex :- DecodeNumber("startIndex", startIndex, MinInt32, MaxInt32);
    var title :- DecodeString("title", title);
    var uri :- DecodeString("uri", uri);
    Ok(Citation(endIndex, license, date, startIndex, title, uri))
  }

  function DecodeCitation(j: Json): (r: Result<Citation>)
    ensures j.JNull? ==> r == Ok(EmptyCitation)
    ensures !j.JNull? && !j.JObj? ==> r == Err(NotAnObject)
  {
    match j
    case JNull => Ok(EmptyCitation)
    case JObj(ms) =>
      CitationOfFields(Field(ms, "publicationDate"), Field(ms, "endIndex"), Field(ms, "license"),
                       Field(ms, "startIndex"), Field(ms, "title"), Field(ms, "uri"))
    case _ => Err(NotAnObject)
  }

  /** Decoding succeeds with `c` when each field decodes to `c`'s value. */
  lemma DecodeCitationOfFields(ms: seq<Member>, c: Citation)
    requires DecodeDate("publicationDate", Field(ms, "publicationDate")) == Ok(c.publicationDate)
    requires DecodeNumber("endIndex", Field(ms, "endIndex"), MinInt32, MaxInt32) == Ok(c.endIndex as int)
    requires DecodeString("license", Field(ms, "license")) == Ok(c.license)
    requires DecodeNumber("startIndex", Field(ms, "startIndex"), MinInt32, MaxInt32) == Ok(c.startIndex as int)
    requires DecodeString("title", Field(ms, "title")) == Ok(c.title)
    requires DecodeString("uri", Field(ms, "uri")) == Ok(c.uri)
    ensures DecodeCitation(JObj(ms)) == Ok(c)
  {
  }

  lemma CitationRoundTrip(c: Citation)
    ensures DecodeCitation(EncodeCitation(c)) == Ok(c)
  {
    var vs := CitationFields(c);
    DateRoundTrip("publicationDate", c.publicationDate);
    NumberFieldRoundTrip("endIndex", c.endIndex, MinInt32, MaxInt32);
    NumberFieldRoundTrip("startIndex", c.startIndex, MinInt32, MaxInt32);
    FieldOfEmit(CitationKeys, vs, 0);
    FieldOfEmit(CitationKeys, vs, 1);
    FieldOfEmit(CitationKeys, vs, 2);
    FieldOfEmit(CitationKeys, vs, 3);
    FieldOfEmit(CitationKeys, vs, 4);
    FieldOfEmit(CitationKeys, vs, 5);
    DecodeCitationOfFields(Emit(CitationKeys, vs), c);
  }

  lemma CitationEmptyIsEmptyObject()
    ensures EncodeCitation(EmptyCitation) == JObj([])
    ensures DecodeCitation(JObj([])) == Ok(EmptyCitation)
  {
    EmitNothing(CitationKeys, CitationFields(EmptyCitation), |CitationKeys|);
  }

  lemma CitationIgnoresUnknownKey(ms: seq<Member>, k: string, v: Json)
    requires k != "publicationDate" && k != "endIndex" && k != "license"
    requires k != "startIndex" && k != "title" && k != "uri"
    ensures DecodeCitation(JObj(ms + [(k, v)])) == DecodeCitation(JObj(ms))
  {
    FieldIgnoresOtherKey(ms, k, v, "publicationDate");
    FieldIgnoresOtherKey(ms, k, v, "endIndex");
    FieldIgnoresOtherKey(ms, k, v, "license");
    FieldIgnoresOtherKey(ms, k, v, "startIndex");
    FieldIgnoresOtherKey(ms, k, v, "title");
    FieldIgnoresOtherKey(ms, k, v, "uri");
  }

  lemma CitationEncodeVector()
    ensures EncodeCitation(Citation(10, "MIT", Date(2023, 10, 26), 5, "Test Title", "https://example.com")) ==
      JObj([("publicationDate", JObj([("day", JNum(26)), ("month", JNum(10)), ("year", JNum(2023))])),
            ("endIndex", JNum(10)), ("license", JStr("MIT")), ("startIndex", JNum(5)),
            ("title", JStr("Test Title")), ("uri", JStr("https://example.com"))])
  {
    assert EmitFirst(["publicationDate", "endIndex", "license", "startIndex", "title", "uri"],
                     [Some(JObj([("day", JNum(26)), ("month", JNum(10)), ("year", JNum(2023))])),
                      Some(JNum(10)), Some(JStr("MIT")), Some(JNum(5)),
                      Some(JStr("Test Title")), Some(JStr("https://example.com"))], 6) ==
      [("publicationDate", JObj([("day", JNum(26)), ("month", JNum(10)), ("year", JNum(2023))])),
       ("endIndex", JNum(10)), ("license", JStr("MIT")), ("startIndex", JNum(5)),
       ("title", JStr("Test Title")), ("uri", JStr("https://example.com"))];
  }

  lemma CitationDecodeVector()
    ensures DecodeCitation(JObj([("endIndex", JNum(10)), ("license", JStr("MIT")),
                                 ("publicationDate", JObj([("year", JNum(2023)), ("month", JNum(10)), ("day", JNum(26))])),
                                 ("startIndex", JNum(5)), ("title", JStr("Test Title")),
                                 ("uri", JStr("https://example.com"))])) ==
      Ok(Citation(10, "MIT", Date(2023, 10, 26), 5, "Test Title", "https://example.com"))
  {
    var date := [("year", JNum(2023)), ("month", JNum(10)), ("day", JNum(26))];
    DateVector("publicationDate");
    var ms := [("endIndex", JNum(10)), ("license", JStr("MIT")), ("publicationDate", JObj(date)),
               ("startIndex", JNum(5)), ("title", JStr("Test Title")), ("uri", JStr("https://example.com"))];
    FieldOfMember(ms, 0);
    FieldOfMember(ms, 1);
    FieldOfMember(ms, 2);
    FieldOfMember(ms, 3);
    FieldOfMember(ms, 4);
    FieldOfMember(ms, 5);
    DecodeCitationOfFields(ms, Citation(10, "MIT", Date(2023, 10, 26), 5, "Test Title", "https://example.com"));
  }

  /** A publication date without a year fails the whole citation. */
  lemma CitationRejectsDateWithoutYear()
    ensures DecodeCitation(JObj([("publicationDate", JObj([("month", JNum(10)), ("day", JNum(26))]))])).Err?
  {
    FieldOfMember([("publicationDate", JObj([("month", JNum(10)), ("day", JNum(26))]))], 0);
    DatePresenceLaw("publicationDate", 2023, 10, 26);
  }

  /** An object whose only member is the publication date leaves every
      other field at its zero value. */
  lemma OnlyPublicationDate(ms: seq<Member>)
    requires forall i :: 0 <= i < |ms| ==> ms[i].0 == "publicationDate"
    ensures Field(ms, "endIndex") == None && Field(ms, "license") == None && Field(ms, "startIndex") == None
    ensures Field(ms, "title") == None && Field(ms, "uri") == None
  {
    FieldOfMissingKey(ms, "endIndex");
    FieldOfMissingKey(ms, "license");
    FieldOfMissingKey(ms, "startIndex");
    FieldOfMissingKey(ms, "title");
    FieldOfMissingKey(ms, "uri");
  }

  lemma CitationPartialDates()
    ensures DecodeCitation(JObj([("publicationDate", JObj([("year", JNum(2023))]))])) ==
      Ok(Citation(0, "", Date(2023, 0, 0), 0, "", ""))
    ensures DecodeCitation(JObj([("publicationDate", JObj([("year", JNum(2023)), ("month", JNum(10))]))])) ==
      Ok(Citation(0, "", Date(2023, 10, 0), 0, "", ""))
  {
    DatePresenceLaw("publicationDate", 2023, 10, 26);
    var y := [("publicationDate", JObj([("year", JNum(2023))]))];
    FieldOfMember(y, 0);
    OnlyPublicationDate(y);
    DecodeCitationOfFields(y, Citation(0, "", Date(2023, 0, 0), 0, "", ""));
    var ym := [("publicationDate", JObj([("year", JNum(2023)), ("month", JNum(10))]))];
    FieldOfMember(ym, 0);
    OnlyPublicationDate(ym);
    DecodeCitationOfFields(ym, Citation(0, "", Date(2023, 10, 0), 0, "", ""));
  }
}
