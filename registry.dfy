/** The closed set of records with a custom JSON codec, and the dispatch that
    picks a record's codec by its kind rather than by reflection. The
    marshal table round-trips every record through this dispatch: a record
    is encoded, and the encoding is decoded as a record of the same kind. */
module RecordRegistry {
  import opened Wrappers
  import opened JsonTree
  import S = SchemaCodec
  import C = CitationCodec
  import T = TokensInfoCodec
  import CC = CachedContentConfigCodec
  import G = GenerateContentResponseCodec
  import TM = TunedModelInfoCodec
  import V = VideoMetadataCodec
  import F = FileCodec
  import W = ContextWindowCodec
  import K = CheckpointCodec

  /** The record a JSON document is decoded into. Creating and updating
      cached content use the same configuration codec. */
  datatype Kind =
    | SchemaKind
    | CitationKind
    | TokensInfoKind
    | CreateCachedContentConfigKind
    | UpdateCachedContentConfigKind
    | GenerateContentResponseKind
    | TunedModelInfoKind
    | VideoMetadataKind
    | FileKind
    | SlidingWindowKind
    | CompressionConfigKind
    | CheckpointKind

  datatype Record =
    | SchemaRecord(schema: S.Schema)
    | CitationRecord(citation: C.Citation)
    | TokensInfoRecord(tokensInfo: T.TokensInfo)
    | CreateCachedContentConfigRecord(createConfig: CC.CachedContentConfig)
    | UpdateCachedContentConfigRecord(updateConfig: CC.CachedContentConfig)
    | GenerateContentResponseRecord(response: G.GenerateContentResponse)
    | TunedModelInfoRecord(tunedModel: TM.TunedModelInfo)
    | VideoMetadataRecord(video: V.VideoMetadata)
    | FileRecord(file: F.File)
    | SlidingWindowRecord(window: W.SlidingWindow)
    | CompressionConfigRecord(compression: W.ContextWindowCompressionConfig)
    | CheckpointRecord(checkpoint: K.Checkpoint)

  function KindOf(r: Record): Kind {
    match r
    case SchemaRecord(_) => SchemaKind
    case CitationRecord(_) => CitationKind
    case TokensInfoRecord(_) => TokensInfoKind
    case CreateCachedContentConfigRecord(_) => CreateCachedContentConfigKind
    case UpdateCachedContentConfigRecord(_) => UpdateCachedContentConfigKind
    case GenerateContentResponseRecord(_) => GenerateContentResponseKind
    case TunedModelInfoRecord(_) => TunedModelInfoKind
    case VideoMetadataRecord(_) => VideoMetadataKind
    case FileRecord(_) => FileKind
    case SlidingWindowRecord(_) => SlidingWindowKind
    case CompressionConfigRecord(_) => CompressionConfigKind
    case CheckpointRecord(_) => CheckpointKind
  }

  /** Every record is written as a JSON object. */
  function EncodeRecord(r: Record): (j: Json)
    ensures j.JObj?
  {
    match r
    case SchemaRecord(s) => S.EncodeSchema(s)
    case CitationRecord(c) => C.EncodeCitation(c)
    case TokensInfoRecord(t) => T.EncodeTokensInfo(t)
    case CreateCachedContentConfigRecord(c) => CC.EncodeCachedContentConfig(c)
    case UpdateCachedContentConfigRecord(c) => CC.EncodeCachedContentConfig(c)
    case GenerateContentResponseRecord(g) => G.EncodeGenerateContentResponse(g)
    case TunedModelInfoRecord(t) => TM.EncodeTunedModelInfo(t)
    case VideoMetadataRecord(v) => V.EncodeVideoMetadata(v)
    case FileRecord(f) => F.EncodeFile(f)
    case SlidingWindowRecord(w) => W.EncodeSlidingWindow(w)
    case CompressionConfigRecord(c) => W.EncodeCompressionConfig(c)
    case CheckpointRecord(c) => K.EncodeCheckpoint(c)
  }

  /** Decodes a document as a record of the given kind; a decoded record
      is always of the kind that was asked for. */
  function DecodeRecord(k: Kind, j: Json): (r: Result<Record>)
    ensures r.Ok? ==> KindOf(r.value) == k
  {
    match k
    case SchemaKind => match S.DecodeSchema(j) { case Ok(v) => Ok(SchemaRecord(v)) case Err(e) => Err(e) }
    case CitationKind => match C.DecodeCitation(j) { case Ok(v) => Ok(CitationRecord(v)) case Err(e) => Err(e) }
    case TokensInfoKind => match T.DecodeTokensInfo(j) { case Ok(v) => Ok(TokensInfoRecord(v)) case Err(e) => Err(e) }
    case CreateCachedContentConfigKind =>
      match CC.DecodeCachedContentConfig(j) { case Ok(v) => Ok(CreateCachedContentConfigRecord(v)) case Err(e) => Err(e) }
    case UpdateCachedContentConfigKind =>
      match CC.DecodeCachedContentConfig(j) { case Ok(v) => Ok(UpdateCachedContentConfigRecord(v)) case Err(e) => Err(e) }
    case GenerateContentResponseKind =>
      match G.DecodeGenerateContentResponse(j) { case Ok(v) => Ok(GenerateContentResponseRecord(v)) case Err(e) => Err(e) }
    case TunedModelInfoKind => match TM.DecodeTunedModelInfo(j) { case Ok(v) => Ok(TunedModelInfoRecord(v)) case Err(e) => Err(e) }
    case VideoMetadataKind => match V.DecodeVideoMetadata(j) { case Ok(v) => Ok(VideoMetadataRecord(v)) case Err(e) => Err(e) }
    case FileKind => match F.DecodeFile(j) { case Ok(v) => Ok(FileRecord(v)) case Err(e) => Err(e) }
    case SlidingWindowKind => match W.DecodeSlidingWindow(j) { case Ok(v) => Ok(SlidingWindowRecord(v)) case Err(e) => Err(e) }
    case CompressionConfigKind => match W.DecodeCompressionConfig(j) { case Ok(v) => Ok(CompressionConfigRecord(v)) case Err(e) => Err(e) }
    case CheckpointKind => match K.DecodeCheckpoint(j) { case Ok(v) => Ok(CheckpointRecord(v)) case Err(e) => Err(e) }
  }

  /** The zero value of each kind: what decoding `{}` gives. */
  function EmptyRecord(k: Kind): (r: Record)
    ensures KindOf(r) == k
  {
    match k
    case SchemaKind => SchemaRecord(S.EmptySchema)
    case CitationKind => CitationRecord(C.EmptyCitation)
    case TokensInfoKind => TokensInfoRecord(T.EmptyTokensInfo)
    case CreateCachedContentConfigKind => CreateCachedContentConfigRecord(CC.EmptyConfig)
    case UpdateCachedContentConfigKind => UpdateCachedContentConfigRecord(CC.EmptyConfig)
    case GenerateContentResponseKind => GenerateContentResponseRecord(G.EmptyResponse)
    case TunedModelInfoKind => TunedModelInfoRecord(TM.EmptyTunedModelInfo)
    case VideoMetadataKind => VideoMetadataRecord(V.EmptyVideoMetadata)
    case FileKind => FileRecord(F.EmptyFile)
    case SlidingWindowKind => SlidingWindowRecord(W.EmptySlidingWindow)
    case CompressionConfigKind => CompressionConfigRecord(W.EmptyCompressionConfig)
    case CheckpointKind => CheckpointRecord(K.EmptyCheckpoint)
  }

  /** The central law of the marshal table: every record of every kind,
      encoded and decoded as its own kind, comes back equal. */
  lemma RecordRoundTrip(r: Record)
    ensures DecodeRecord(KindOf(r), EncodeRecord(r)) == Ok(r)
  {
    match r
    case SchemaRecord(_) => SchemaDispatchRoundTrip(r);
    case CitationRecord(_) => CitationDispatchRoundTrip(r);
    case TokensInfoRecord(_) => TokensInfoDispatchRoundTrip(r);
    case CreateCachedContentConfigRecord(_) => CreateCachedContentConfigDispatchRoundTrip(r);
    case UpdateCachedContentConfigRecord(_) => UpdateCachedContentConfigDispatchRoundTrip(r);
    case GenerateContentResponseRecord(_) => GenerateContentResponseDispatchRoundTrip(r);
    case TunedModelInfoRecord(_) => TunedModelInfoDispatchRoundTrip(r);
    case VideoMetadataRecord(_) => VideoMetadataDispatchRoundTrip(r);
    case FileRecord(_) => FileDispatchRoundTrip(r);
    case SlidingWindowRecord(_) => SlidingWindowDispatchRoundTrip(r);
    case CompressionConfigRecord(_) => CompressionConfigDispatchRoundTrip(r);
    case CheckpointRecord(_) => CheckpointDispatchRoundTrip(r);
  }

  /* One lemma per kind keeps each proof obligation small: each carries
     that kind's own round trip through the dispatch. */

  lemma SchemaDispatchRoundTrip(r: Record)
    requires r.SchemaRecord?
    ensures DecodeRecord(KindOf(r), EncodeRecord(r)) == Ok(r)
  {
    S.SchemaRoundTrip(r.schema);
  }

  lemma CitationDispatchRoundTrip(r: Record)
    requires r.CitationRecord?
    ensures DecodeRecord(KindOf(r), EncodeRecord(r)) == Ok(r)
  {
    C.CitationRoundTrip(r.citation);
  }

  lemma TokensInfoDispatchRoundTrip(r: Record)
    requires r.TokensInfoRecord?
    ensures DecodeRecord(KindOf(r), EncodeRecord(r)) == Ok(r)
  {
    T.TokensInfoRoundTrip(r.tokensInfo);
  }

  lemma CreateCachedContentConfigDispatchRoundTrip(r: Record)
    requires r.CreateCachedContentConfigRecord?
    ensures DecodeRecord(KindOf(r), EncodeRecord(r)) == Ok(r)
  {
    CC.CachedContentConfigRoundTrip(r.createConfig);
  }

  lemma UpdateCachedContentConfigDispatchRoundTrip(r: Record)
    requires r.UpdateCachedContentConfigRecord?
    ensures DecodeRecord(KindOf(r), EncodeRecord(r)) == Ok(r)
  {
    CC.CachedContentConfigRoundTrip(r.updateConfig);
  }

  lemma GenerateContentResponseDispatchRoundTrip(r: Record)
    requires r.GenerateContentResponseRecord?
    ensures DecodeRecord(KindOf(r), EncodeRecord(r)) == Ok(r)
  {
    G.GenerateContentResponseRoundTrip(r.response);
  }

  lemma TunedModelInfoDispatchRoundTrip(r: Record)
    requires r.TunedModelInfoRecord?
    ensures DecodeRecord(KindOf(r), EncodeRecord(r)) == Ok(r)
  {
    TM.TunedModelInfoRoundTrip(r.tunedModel);
  }

  lemma VideoMetadataDispatchRoundTrip(r: Record)
    requires r.VideoMetadataRecord?
    ensures DecodeRecord(KindOf(r), EncodeRecord(r)) == Ok(r)
  {
    V.VideoMetadataRoundTrip(r.video);
  }

  lemma FileDispatchRoundTrip(r: Record)
    requires r.FileRecord?
    ensures DecodeRecord(KindOf(r), EncodeRecord(r)) == Ok(r)
  {
    F.FileRoundTrip(r.file);
  }

  lemma SlidingWindowDispatchRoundTrip(r: Record)
    requires r.SlidingWindowRecord?
    ensures DecodeRecord(KindOf(r), EncodeRecord(r)) == Ok(r)
  {
    W.SlidingWindowRoundTrip(r.window);
  }

  lemma CompressionConfigDispatchRoundTrip(r: Record)
    requires r.CompressionConfigRecord?
    ensures DecodeRecord(KindOf(r), EncodeRecord(r)) == Ok(r)
  {
    W.CompressionConfigRoundTrip(r.compression);
  }

  lemma CheckpointDispatchRoundTrip(r: Record)
    requires r.CheckpointRecord?
    ensures DecodeRecord(KindOf(r), EncodeRecord(r)) == Ok(r)
  {
    K.CheckpointRoundTrip(r.checkpoint);
  }

  /** The omission law: the zero record of every kind is written as `{}`,
      and `{}` reads back as that zero record. */
  lemma EmptyRecordIsEmptyObject(k: Kind)
    ensures EncodeRecord(EmptyRecord(k)) == JObj([])
    ensures DecodeRecord(k, JObj([])) == Ok(EmptyRecord(k))
  {
    EmptyRecordEncoding(k);
    RecordRoundTrip(EmptyRecord(k));
  }

  lemma EmptyRecordEncoding(k: Kind)
    ensures EncodeRecord(EmptyRecord(k)) == JObj([])
  {
    match k
    case SchemaKind => S.SchemaEmptyIsEmptyObject();
    case CitationKind => C.CitationEmptyIsEmptyObject();
    case TokensInfoKind => T.TokensInfoEmptyIsEmptyObject();
    case CreateCachedContentConfigKind => CC.CachedContentConfigVectors();
    case UpdateCachedContentConfigKind => CC.CachedContentConfigVectors();
    case GenerateContentResponseKind => G.GenerateContentResponseVectors();
    case TunedModelInfoKind => TM.TunedModelInfoVectors();
    case VideoMetadataKind => V.VideoMetadataEncodeVectors();
    case FileKind => F.FileEmptyIsEmptyObject();
    case SlidingWindowKind => W.ContextWindowVectors();
    case CompressionConfigKind => W.ContextWindowVectors();
    case CheckpointKind => K.CheckpointEmptyIsEmptyObject();
  }

  /** Both directions of the omission law: a record is written as `{}`
      exactly when it is the zero record of its kind, so no set field is
      ever silently dropped. */
  lemma EmptyObjectIffZero(r: Record)
    ensures EncodeRecord(r) == JObj([]) <==> r == EmptyRecord(KindOf(r))
  {
    EmptyRecordIsEmptyObject(KindOf(r));
    RecordRoundTrip(r);
  }
}
