/** A file uploaded to the service: its names, type, size, hash, locations,
    processing state, an optional error status, free-form video metadata
    and three instants. */
module FileCodec {
  import opened Wrappers
  import opened JsonTree
  import opened DecimalInt
  import opened TimestampCodec
  import opened FieldCodec

  /** The error status of a file whose processing failed, cut down to its
      message, the one field the tables set. */
  datatype FileStatus = FileStatus(message: string)

  datatype File = File(
    name: string,
    displayName: string,
    mimeType: string,
    sizeBytes: Option<int64>,
    sha256Hash: string,
    uri: string,
    downloadUri: string,
    state: string,
    source: string,
    videoMetadata: seq<Member>,
    error: Option<FileStatus>,
    expirationTime: Timestamp,
    createTime: Timestamp,
    updateTime: Timestamp)

  const EmptyFile := File("", "", "", None, "", "", "", "", "", [], None, ZeroTime, ZeroTime, ZeroTime)

  function EncodeFileStatus(s: FileStatus): (j: Json)
    ensures j.JObj? && |j.members| <= 1
    ensures Field(j.members, "message") == StringField(s.message)
  {
    FieldOfEmit(["message"], [StringField(s.message)], 0);
    JObj(Emit(["message"], [StringField(s.message)]))
  }

  function DecodeFileStatus(v: Option<Json>): (r: Result<Option<FileStatus>>)
    ensures v.None? ==> r == Ok(None)
    ensures v.Some? && !v.value.JObj? ==> r == Err(TypeError("error"))
    ensures r.Ok? && v.Some? ==>
              r.value.Some? && DecodeString("message", Field(v.value.members, "message")) == Ok(r.value.value.message)
  {
    match v
    case None => Ok(None)
    case Some(JObj(ms)) =>
      var message :- DecodeString("message", Field(ms, "message"));
      Ok(Some(FileStatus(message)))
    case Some(_) => Err(TypeError("error"))
  }

  function ErrorField(e: Option<FileStatus>): Option<Json> {
    if e.Some? then Some(EncodeFileStatus(e.value)) else None
  }

  lemma ErrorFieldRoundTrip(e: Option<FileStatus>)
    ensures DecodeFileStatus(ErrorField(e)) == Ok(e)
  {
    if e.Some? {
      FieldOfEmit(["message"], [StringField(e.value.message)], 0);
    }
  }

  /** The video metadata is an arbitrary object, kept as its members and
      omitted when it has none. */
  function VideoMetadataField(ms: seq<Member>): Option<Json> {
    if |ms| == 0 then None else Some(JObj(ms))
  }

  function DecodeVideoMetadataField(v: Option<Json>): (r: Result<seq<Member>>)
    ensures v.None? ==> r == Ok([])
    ensures r.Ok? <==> v.None? || v.value.JObj?
    ensures r.Ok? && v.Some? ==> r.value == v.value.members
  {
    match v
    case None => Ok([])
    case Some(JObj(ms)) => Ok(ms)
    case Some(_) => Err(TypeError("videoMetadata"))
  }

  /** The members are written in the declared order: the names and
      locations, the state, the video metadata and error, then the
      expiration, creation and update instants. */
  const FileKeys: seq<string> :=
    [ "name", "displayName", "mimeType", "sizeBytes", "sha256Hash", "uri", "downloadUri",
      "state", "source", "videoMetadata", "error", "expirationTime", "createTime", "updateTime" ]

  lemma FileKeysDistinct()
    ensures DistinctKeys(FileKeys)
  {
  }

  /** What is written for the `i`-th declared key. Empty strings, an
      absent size or error, empty metadata and unset instants are omitted. */
  function FileField(f: File, i: nat): Option<Json>
    requires i < |FileKeys|
  {
    if i == 0 then StringField(f.name)
    else if i == 1 then StringField(f.displayName)
    else if i == 2 then StringField(f.mimeType)
    else if i == 3 then OptionalInt64Field(f.sizeBytes)
    else if i == 4 then StringField(f.sha256Hash)
    else if i == 5 then StringField(f.uri)
    else if i == 6 then StringField(f.downloadUri)
    else if i == 7 then StringField(f.state)
    else if i == 8 then StringField(f.source)
    else if i == 9 then VideoMetadataField(f.videoMetadata)
    else if i == 10 then ErrorField(f.error)
    else if i == 11 then TimestampField(f.expirationTime)
    else if i == 12 then TimestampField(f.createTime)
    else TimestampField(f.updateTime)
  }

  function FileFields(f: File): (vs: seq<Option<Json>>)
    ensures |vs| == |FileKeys|
  {
    seq(|FileKeys|, i requires 0 <= i < |FileKeys| => FileField(f, i))
  }

  /** The names and type of an encoded file. */
  lemma FileNamesOfEncode(f: File)
    ensures Field(Emit(FileKeys, FileFields(f)), "name") == StringField(f.name)
    ensures Field(Emit(FileKeys, FileFields(f)), "displayName") == StringField(f.displayName)
    ensures Field(Emit(FileKeys, FileFields(f)), "mimeType") == StringField(f.mimeType)
  {
    FileKeysDistinct();
    FieldOfEmit(FileKeys, FileFields(f), 0);
    FieldOfEmit(FileKeys, FileFields(f), 1);
    FieldOfEmit(FileKeys, FileFields(f), 2);
  }

  /** The size, hash and locations of an encoded file. */
  lemma FileSizeAndLocationsOfEncode(f: File)
    ensures Field(Emit(FileKeys, FileFields(f)), "sizeBytes") == OptionalInt64Field(f.sizeBytes)
    ensures Field(Emit(FileKeys, FileFields(f)), "sha256Hash") == StringField(f.sha256Hash)
    ensures Field(Emit(FileKeys, FileFields(f)), "uri") == StringField(f.uri)
    ensures Field(Emit(FileKeys, FileFields(f)), "downloadUri") == StringField(f.downloadUri)
  {
    FileKeysDistinct();
    FieldOfEmit(FileKeys, FileFields(f), 3);
    FieldOfEmit(FileKeys, FileFields(f), 4);
    FieldOfEmit(FileKeys, FileFields(f), 5);
    FieldOfEmit(FileKeys, FileFields(f), 6);
  }

  /** The state, source, metadata and error of an encoded file. */
  lemma FileStateOfEncode(f: File)
    ensures Field(Emit(FileKeys, FileFields(f)), "state") == StringField(f.state)
    ensures Field(Emit(FileKeys, FileFields(f)), "source") == StringField(f.source)
    ensures Field(Emit(FileKeys, FileFields(f)), "videoMetadata") == VideoMetadataField(f.videoMetadata)
    ensures Field(Emit(FileKeys, FileFields(f)), "error") == ErrorField(f.error)
  {
    FileKeysDistinct();
    FieldOfEmit(FileKeys, FileFields(f), 7);
    FieldOfEmit(FileKeys, FileFields(f), 8);
    FieldOfEmit(FileKeys, FileFields(f), 9);
    FieldOfEmit(FileKeys, FileFields(f), 10);
  }

  /** The instants of an encoded file. */
  lemma FileInstantsOfEncode(f: File)
    ensures Field(Emit(FileKeys, FileFields(f)), "expirationTime") == TimestampField(f.expirationTime)
    ensures Field(Emit(FileKeys, FileFields(f)), "createTime") == TimestampField(f.createTime)
    ensures Field(Emit(FileKeys, FileFields(f)), "updateTime") == TimestampField(f.updateTime)
  {
    FileKeysDistinct();
    FieldOfEmit(FileKeys, FileFields(f), 11);
    FieldOfEmit(FileKeys, FileFields(f), 12);
    FieldOfEmit(FileKeys, FileFields(f), 13);
  }

  function EncodeFile(f: File): (j: Json)
    ensures j.JObj? && |j.members| <= |FileKeys|
    ensures Field(j.members, "name") == StringField(f.name)
    ensures Field(j.members, "displayName") == StringField(f.displayName)
    ensures Field(j.members, "mimeType") == StringField(f.mimeType)
    ensures Field(j.members, "sizeBytes") == OptionalInt64Field(f.sizeBytes)
    ensures Field(j.members, "sha256Hash") == StringField(f.sha256Hash)
    ensures Field(j.members, "uri") == StringField(f.uri)
    ensures Field(j.members, "downloadUri") == StringField(f.downloadUri)
    ensures Field(j.members, "state") == StringField(f.state)
    ensures Field(j.members, "source") == StringField(f.source)
    ensures Field(j.members, "videoMetadata") == VideoMetadataField(f.videoMetadata)
    ensures Field(j.members, "error") == ErrorField(f.error)
    ensures Field(j.members, "expirationTime") == TimestampField(f.expirationTime)
    ensures Field(j.members, "createTime") == TimestampField(f.createTime)
    ensures Field(j.members, "updateTime") == TimestampField(f.updateTime)
  {
    FileNamesOfEncode(f);
    FileSizeAndLocationsOfEncode(f);
    FileStateOfEncode(f);
    FileInstantsOfEncode(f);
    JObj(Emit(FileKeys, FileFields(f)))
  }

  /** The conversion of a file's fields, as found in the object, into a
      File; the first field that fails fails the whole file. */
  function FileOfFields(name: Option<Json>, displayName: Option<Json>, mimeType: Option<Json>,
                        sizeBytes: Option<Json>, sha256Hash: Option<Json>, uri: Option<Json>,
                        downloadUri: Option<Json>, state: Option<Json>, source: Option<Json>,
                        videoMetadata: Option<Json>, error: Option<Json>, expirationTime: Option<Json>,
                        createTime: Option<Json>, updateTime: Option<Json>): (r: Result<File>)
    ensures r.Ok? <==>
              DecodeString("name", name).Ok? && DecodeString("displayName", displayName).Ok? &&
              DecodeString("mimeType", mimeType).Ok? && DecodeOptionalInt64("sizeBytes", sizeBytes).Ok? &&
              DecodeString("sha256Hash", sha256Hash).Ok? && DecodeString("uri", uri).Ok? &&
              DecodeString("downloadUri", downloadUri).Ok? && DecodeString("state", state).Ok? &&
              DecodeString("source", source).Ok? && DecodeVideoMetadataField(videoMetadata).Ok? &&
              DecodeFileStatus(error).Ok? && DecodeTimestamp("expirationTime", expirationTime).Ok? &&
              DecodeTimestamp("createTime", createTime).Ok? && DecodeTimestamp("updateTime", updateTime).Ok?
    ensures r.Ok? ==>
              DecodeString("name", name) == Ok(r.value.name) &&
              DecodeString("displayName", displayName) == Ok(r.value.displayName) &&
              DecodeString("mimeType", mimeType) == Ok(r.value.mimeType) &&
              DecodeOptionalInt64("sizeBytes", sizeBytes) == Ok(r.value.sizeBytes) &&
              DecodeString("sha256Hash", sha256Hash) == Ok(r.value.sha256Hash) &&
              DecodeString("uri", uri) == Ok(r.value.uri) &&
              DecodeString("downloadUri", downloadUri) == Ok(r.value.downloadUri) &&
              DecodeString("state", state) == Ok(r.value.state) &&
              DecodeString("source", source) == Ok(r.value.source) &&
              DecodeVideoMetadataField(videoMetadata) == Ok(r.value.videoMetadata) &&
              DecodeFileStatus(error) == Ok(r.value.error) &&
              DecodeTimestamp("expirationTime", expirationTime) == Ok(r.value.expirationTime) &&
              DecodeTimestamp("createTime", createTime) == Ok(r.value.createTime) &&
              DecodeTimestamp("updateTime", updateTime) == Ok(r.value.updateTime)
  {
    var name :- DecodeString("name", name);
    var displayName :- DecodeString("displayName", displayName);
    var mimeType :- DecodeString("mimeType", mimeType);
    var sizeBytes :- DecodeOptionalInt64("sizeBytes", sizeBytes);
    var sha256Hash :- DecodeString("sha256Hash", sha256Hash);
    var uri :- DecodeString("uri", uri);
    var downloadUri :- DecodeString("downloadUri", downloadUri);
    var state :- DecodeString("state", state);
    var source :- DecodeString("source", source);
    var videoMetadata :- DecodeVideoMetadataField(videoMetadata);
    var error :- DecodeFileStatus(error);
    var expirationTime :- DecodeTimestamp("expirationTime", expirationTime);
    var createTime :- DecodeTimestamp("createTime", createTime);
    var updateTime :- DecodeTimestamp("updateTime", updateTime);
    Ok(File(name, displayName, mimeType, sizeBytes, sha256Hash, uri, downloadUri, state, source,
            videoMetadata, error, expirationTime, createTime, updateTime))
  }

  function DecodeFile(j: Json): (r: Result<File>)
    ensures j.JNull? ==> r == Ok(EmptyFile)
    ensures !j.JNull? && !j.JObj? ==> r == Err(NotAnObject)
  {
    match j
    case JNull => Ok(EmptyFile)
    case JObj(ms) =>
      FileOfFields(Field(ms, "name"), Field(ms, "displayName"), Field(ms, "mimeType"),
                   Field(ms, "sizeBytes"), Field(ms, "sha256Hash"), Field(ms, "uri"),
                   Field(ms, "downloadUri"), Field(ms, "state"), Field(ms, "source"),
                   Field(ms, "videoMetadata"), Field(ms, "error"), Field(ms, "expirationTime"),
                   Field(ms, "createTime"), Field(ms, "updateTime"))
    case _ => Err(NotAnObject)
  }

  /** Decoding reads the object only through its fields: it succeeds with
      `f` when each field decodes to `f`'s value, whatever else the object
      carries and in whatever order. */
  lemma DecodeFileOfFields(ms: seq<Member>, f: File)
    requires DecodeString("name", Field(ms, "name")) == Ok(f.name)
    requires DecodeString("displayName", Field(ms, "displayName")) == Ok(f.displayName)
    requires DecodeString("mimeType", Field(ms, "mimeType")) == Ok(f.mimeType)
    requires DecodeOptionalInt64("sizeBytes", Field(ms, "sizeBytes")) == Ok(f.sizeBytes)
    requires DecodeString("sha256Hash", Field(ms, "sha256Hash")) == Ok(f.sha256Hash)
    requires DecodeString("uri", Field(ms, "uri")) == Ok(f.uri)
    requires DecodeString("downloadUri", Field(ms, "downloadUri")) == Ok(f.downloadUri)
    requires DecodeString("state", Field(ms, "state")) == Ok(f.state)
    requires DecodeString("source", Field(ms, "source")) == Ok(f.source)
    requires DecodeVideoMetadataField(Field(ms, "videoMetadata")) == Ok(f.videoMetadata)
    requires DecodeFileStatus(Field(ms, "error")) == Ok(f.error)
    requires DecodeTimestamp("expirationTime", Field(ms, "expirationTime")) == Ok(f.expirationTime)
    requires DecodeTimestamp("createTime", Field(ms, "createTime")) == Ok(f.createTime)
    requires DecodeTimestamp("updateTime", Field(ms, "updateTime")) == Ok(f.updateTime)
    ensures DecodeFile(JObj(ms)) == Ok(f)
  {
  }

  lemma FileFirstFieldsRoundTrip(f: File)
    ensures DecodeString("name", Field(EncodeFile(f).members, "name")) == Ok(f.name)
    ensures DecodeString("displayName", Field(EncodeFile(f).members, "displayName")) == Ok(f.displayName)
    ensures DecodeString("mimeType", Field(EncodeFile(f).members, "mimeType")) == Ok(f.mimeType)
    ensures DecodeOptionalInt64("sizeBytes", Field(EncodeFile(f).members, "sizeBytes")) == Ok(f.sizeBytes)
    ensures DecodeString("sha256Hash", Field(EncodeFile(f).members, "sha256Hash")) == Ok(f.sha256Hash)
    ensures DecodeString("uri", Field(EncodeFile(f).members, "uri")) == Ok(f.uri)
    ensures DecodeString("downloadUri", Field(EncodeFile(f).members, "downloadUri")) == Ok(f.downloadUri)
  {
    var ms := EncodeFile(f).members;
    assert Field(ms, "sizeBytes") == OptionalInt64Field(f.sizeBytes);
    OptionalInt64FieldRoundTrip("sizeBytes", f.sizeBytes);
    StringFieldRoundTrip("name", f.name);
    StringFieldRoundTrip("displayName", f.displayName);
    StringFieldRoundTrip("mimeType", f.mimeType);
    StringFieldRoundTrip("sha256Hash", f.sha256Hash);
    StringFieldRoundTrip("uri", f.uri);
    StringFieldRoundTrip("downloadUri", f.downloadUri);
  }

  lemma FileStateFieldsRoundTrip(f: File)
    ensures DecodeString("state", Field(EncodeFile(f).members, "state")) == Ok(f.state)
    ensures DecodeString("source", Field(EncodeFile(f).members, "source")) == Ok(f.source)
    ensures DecodeVideoMetadataField(Field(EncodeFile(f).members, "videoMetadata")) == Ok(f.videoMetadata)
    ensures DecodeFileStatus(Field(EncodeFile(f).members, "error")) == Ok(f.error)
  {
    ErrorFieldRoundTrip(f.error);
  }

  lemma FileInstantFieldsRoundTrip(f: File)
    ensures DecodeTimestamp("expirationTime", Field(EncodeFile(f).members, "expirationTime")) == Ok(f.expirationTime)
    ensures DecodeTimestamp("createTime", Field(EncodeFile(f).members, "createTime")) == Ok(f.createTime)
    ensures DecodeTimestamp("updateTime", Field(EncodeFile(f).members, "updateTime")) == Ok(f.updateTime)
  {
    TimestampFieldRoundTrip("expirationTime", f.expirationTime);
    TimestampFieldRoundTrip("createTime", f.createTime);
    TimestampFieldRoundTrip("updateTime", f.updateTime);
  }

  lemma FileRoundTrip(f: File)
    ensures DecodeFile(EncodeFile(f)) == Ok(f)
  {
    FileFirstFieldsRoundTrip(f);
    FileStateFieldsRoundTrip(f);
    FileInstantFieldsRoundTrip(f);
    DecodeFileOfFields(EncodeFile(f).members, f);
  }

  lemma FileEmptyIsEmptyObject()
    ensures EncodeFile(EmptyFile) == JObj([])
    ensures DecodeFile(JObj([])) == Ok(EmptyFile)
  {
    EmitNothing(FileKeys, FileFields(EmptyFile), |FileKeys|);
  }

  /** A file with every field set. */
  const SampleFile := File(
    "files/test-file", "Test File", "image/jpeg", Some(1024), "test-hash",
    "https://example.com/test-file", "https://example.com/download/test-file",
    "ACTIVE", "UPLOADED", [("test", JStr("test"))], Some(FileStatus("test error")),
    DateTime(2025, 12, 31, 23, 59, 59), DateTime(2024, 12, 31, 23, 59, 59), DateTime(2025, 1, 1, 0, 0, 0))

  /** The sample file's members up to the names, type and size. */
  lemma SampleFileNames()
    ensures EmitFirst(FileKeys, FileFields(SampleFile), 4) ==
      [ ("name", JStr("files/test-file")),
        ("displayName", JStr("Test File")),
        ("mimeType", JStr("image/jpeg")),
        ("sizeBytes", JStr("1024")) ]
  {
    ParseIntVectors();
    var vs := FileFields(SampleFile);
    assert EmitFirst(FileKeys, vs, 1) == EmitFirst(FileKeys, vs, 0) + [("name", JStr("files/test-file"))];
    assert EmitFirst(FileKeys, vs, 2) == EmitFirst(FileKeys, vs, 1) + [("displayName", JStr("Test File"))];
    assert EmitFirst(FileKeys, vs, 3) == EmitFirst(FileKeys, vs, 2) + [("mimeType", JStr("image/jpeg"))];
    assert EmitFirst(FileKeys, vs, 4) == EmitFirst(FileKeys, vs, 3) + [("sizeBytes", JStr("1024"))];
  }

  /** The sample file's members up to the hash and locations. */
  lemma SampleFileLocations()
    ensures EmitFirst(FileKeys, FileFields(SampleFile), 7) ==
      [ ("name", JStr("files/test-file")),
        ("displayName", JStr("Test File")),
        ("mimeType", JStr("image/jpeg")),
        ("sizeBytes", JStr("1024")),
        ("sha256Hash", JStr("test-hash")),
        ("uri", JStr("https://example.com/test-file")),
        ("downloadUri", JStr("https://example.com/download/test-file")) ]
  {
    SampleFileNames();
    var vs := FileFields(SampleFile);
    assert EmitFirst(FileKeys, vs, 5) == EmitFirst(FileKeys, vs, 4) + [("sha256Hash", JStr("test-hash"))];
    assert EmitFirst(FileKeys, vs, 6) == EmitFirst(FileKeys, vs, 5) + [("uri", JStr("https://example.com/test-file"))];
    assert EmitFirst(FileKeys, vs, 7) == EmitFirst(FileKeys, vs, 6) + [("downloadUri", JStr("https://example.com/download/test-file"))];
  }

  /** The sample file's members up to the state, source and video metadata. */
  lemma SampleFileState()
    ensures EmitFirst(FileKeys, FileFields(SampleFile), 10) ==
      [ ("name", JStr("files/test-file")),
        ("displayName", JStr("Test File")),
        ("mimeType", JStr("image/jpeg")),
        ("sizeBytes", JStr("1024")),
        ("sha256Hash", JStr("test-hash")),
        ("uri", JStr("https://example.com/test-file")),
        ("downloadUri", JStr("https://example.com/download/test-file")),
        ("state", JStr("ACTIVE")),
        ("source", JStr("UPLOADED")),
        ("videoMetadata", JObj([("test", JStr("test"))])) ]
  {
    SampleFileLocations();
    var vs := FileFields(SampleFile);
    assert EmitFirst(FileKeys, vs, 8) == EmitFirst(FileKeys, vs, 7) + [("state", JStr("ACTIVE"))];
    assert EmitFirst(FileKeys, vs, 9) == EmitFirst(FileKeys, vs, 8) + [("source", JStr("UPLOADED"))];
    assert EmitFirst(FileKeys, vs, 10) == EmitFirst(FileKeys, vs, 9) + [("videoMetadata", JObj([("test", JStr("test"))]))];
  }

  /** The sample file's error is written as a status object after the
      video metadata. */
  lemma SampleFileStatus()
    ensures EmitFirst(FileKeys, FileFields(SampleFile), 11) ==
      EmitFirst(FileKeys, FileFields(SampleFile), 10) + [("error", JObj([("message", JStr("test error"))]))]
  {
    assert EncodeFileStatus(FileStatus("test error")) == JObj([("message", JStr("test error"))]);
  }

  /** The values written for the sample file's three instants. */
  lemma SampleFileExpiration()
    ensures FileFields(SampleFile)[11] == Some(JStr("2025-12-31T23:59:59Z"))
  {
    assert FileField(SampleFile, 11) == TimestampField(DateTime(2025, 12, 31, 23, 59, 59));
    TimestampVectorEndOf2025();
  }

  lemma SampleFileCreation()
    ensures FileFields(SampleFile)[12] == Some(JStr("2024-12-31T23:59:59Z"))
  {
    assert FileField(SampleFile, 12) == TimestampField(DateTime(2024, 12, 31, 23, 59, 59));
    TimestampVectorEndOf2024();
  }

  lemma SampleFileUpdate()
    ensures FileFields(SampleFile)[13] == Some(JStr("2025-01-01T00:00:00Z"))
  {
    assert FileField(SampleFile, 13) == TimestampField(DateTime(2025, 1, 1, 0, 0, 0));
    TimestampVectorStartOf2025();
  }

  /** The sample file's three instants are written last, as RFC 3339 text. */
  lemma SampleFileInstants()
    ensures EmitFirst(FileKeys, FileFields(SampleFile), 14) ==
      EmitFirst(FileKeys, FileFields(SampleFile), 11) +
      [ ("expirationTime", JStr("2025-12-31T23:59:59Z")),
        ("createTime", JStr("2024-12-31T23:59:59Z")),
        ("updateTime", JStr("2025-01-01T00:00:00Z")) ]
  {
    SampleFileExpiration();
    SampleFileCreation();
    SampleFileUpdate();
    var vs := FileFields(SampleFile);
    assert EmitFirst(FileKeys, vs, 12) == EmitFirst(FileKeys, vs, 11) + [("expirationTime", JStr("2025-12-31T23:59:59Z"))];
    assert EmitFirst(FileKeys, vs, 13) == EmitFirst(FileKeys, vs, 12) + [("createTime", JStr("2024-12-31T23:59:59Z"))];
    assert EmitFirst(FileKeys, vs, 14) == EmitFirst(FileKeys, vs, 13) + [("updateTime", JStr("2025-01-01T00:00:00Z"))];
  }

  /** The members written for the sample file. */
  lemma SampleFileMembers()
    ensures Emit(FileKeys, FileFields(SampleFile)) ==
      [ ("name", JStr("files/test-file")),
        ("displayName", JStr("Test File")),
        ("mimeType", JStr("image/jpeg")),
        ("sizeBytes", JStr("1024")),
        ("sha256Hash", JStr("test-hash")),
        ("uri", JStr("https://example.com/test-file")),
        ("downloadUri", JStr("https://example.com/download/test-file")),
        ("state", JStr("ACTIVE")),
        ("source", JStr("UPLOADED")),
        ("videoMetadata", JObj([("test", JStr("test"))])),
        ("error", JObj([("message", JStr("test error"))])),
        ("expirationTime", JStr("2025-12-31T23:59:59Z")),
        ("createTime", JStr("2024-12-31T23:59:59Z")),
        ("updateTime", JStr("2025-01-01T00:00:00Z")) ]
  {
    SampleFileState();
    SampleFileStatus();
    SampleFileInstants();
  }

  /** Every field is written, in the declared order. */
  lemma FileEncodeVector()
    ensures EncodeFile(SampleFile) ==
      JObj([ ("name", JStr("files/test-file")),
             ("displayName", JStr("Test File")),
             ("mimeType", JStr("image/jpeg")),
             ("sizeBytes", JStr("1024")),
             ("sha256Hash", JStr("test-hash")),
             ("uri", JStr("https://example.com/test-file")),
             ("downloadUri", JStr("https://example.com/download/test-file")),
             ("state", JStr("ACTIVE")),
             ("source", JStr("UPLOADED")),
             ("videoMetadata", JObj([("test", JStr("test"))])),
             ("error", JObj([("message", JStr("test error"))])),
             ("expirationTime", JStr("2025-12-31T23:59:59Z")),
             ("createTime", JStr("2024-12-31T23:59:59Z")),
             ("updateTime", JStr("2025-01-01T00:00:00Z")) ])
  {
    SampleFileMembers();
  }

  /** Unset instants are omitted, not written as Go's zero time. */
  lemma FileWithEmptyTimeVector()
    ensures EncodeFile(File("files/test-file", "", "", Some(1024), "", "", "", "", "", [], None,
                            ZeroTime, ZeroTime, ZeroTime)) ==
      JObj([("name", JStr("files/test-file")), ("sizeBytes", JStr("1024"))])
  {
    ParseIntVectors();
    var f := File("files/test-file", "", "", Some(1024), "", "", "", "", "", [], None, ZeroTime, ZeroTime, ZeroTime);
    var vs := FileFields(f);
    assert EmitFirst(FileKeys, vs, 1) == [("name", JStr("files/test-file"))];
    assert EmitFirst(FileKeys, vs, 3) == EmitFirst(FileKeys, vs, 1);
    assert EmitFirst(FileKeys, vs, 4) == [("name", JStr("files/test-file")), ("sizeBytes", JStr("1024"))];
    EmitNothingAfter(FileKeys, vs, 4, |FileKeys|);
  }

  /** A member whose key a File does not declare changes nothing. */
  lemma FileIgnoresUnknownKey(ms: seq<Member>, k: string, v: Json)
    requires k != "name" && k != "displayName" && k != "mimeType" && k != "sizeBytes"
    requires k != "sha256Hash" && k != "uri" && k != "downloadUri" && k != "state"
    requires k != "source" && k != "videoMetadata" && k != "error"
    requires k != "expirationTime" && k != "createTime" && k != "updateTime"
    ensures DecodeFile(JObj(ms + [(k, v)])) == DecodeFile(JObj(ms))
  {
    FieldIgnoresOtherKey(ms, k, v, "name");
    FieldIgnoresOtherKey(ms, k, v, "displayName");
    FieldIgnoresOtherKey(ms, k, v, "mimeType");
    FieldIgnoresOtherKey(ms, k, v, "sizeBytes");
    FieldIgnoresOtherKey(ms, k, v, "sha256Hash");
    FieldIgnoresOtherKey(ms, k, v, "uri");
    FieldIgnoresOtherKey(ms, k, v, "downloadUri");
    FieldIgnoresOtherKey(ms, k, v, "state");
    FieldIgnoresOtherKey(ms, k, v, "source");
    FieldIgnoresOtherKey(ms, k, v, "videoMetadata");
    FieldIgnoresOtherKey(ms, k, v, "error");
    FieldIgnoresOtherKey(ms, k, v, "expirationTime");
    FieldIgnoresOtherKey(ms, k, v, "createTime");
    FieldIgnoresOtherKey(ms, k, v, "updateTime");
  }
}
