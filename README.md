# JSON field codec of the go-genai record types

This project models the JSON wire codec of the Go generative-AI SDK's record
types: `Schema`, `Citation`, `TokensInfo`, `CreateCachedContentConfig` and
`UpdateCachedContentConfig`, `GenerateContentResponse`, `TunedModelInfo`,
`VideoMetadata`, `File`, `SlidingWindow`, `ContextWindowCompressionConfig`
and `Checkpoint`. The SDK follows the proto3 JSON mapping:

- 64-bit integers are written as decimal strings.
- Durations are written as `"<seconds>s"`.
- Calendar dates are `{day, month, year}` objects.
- Instants are RFC 3339 text in UTC.
- Byte strings are base64 text (section 4 of RFC 4648).

Zero-valued fields are omitted, and each record writes its keys in its own
fixed order.

The behaviour modelled is the one pinned down by the test tables of
`types_json_test.go`. `TestUnmarshalJSON` lists the decode vectors and the
errors. `TestMarshalJSON` lists the exact encodings and, at lines 697-705,
requires that every marshalled record unmarshals back to an equal value.
The `MarshalJSON`/`UnmarshalJSON` methods those tests exercise are not part
of this model; the model is a specification of what the tests assert.

Everything is pure: a record is encoded to an abstract JSON value tree
(`JsonTree.Json`), and a tree is decoded to a record or to a
`Wrappers.DecodeError`. Object members keep their order, so key order is
stated exactly. When a key occurs twice, the last occurrence wins. An
explicit `null` is the same as a missing key, as it is for Go's
`encoding/json` decoding into pointers and values; likewise a `null` item
of `tokens` is an empty byte string.

Modules, leaves first:

- `Wrappers`: `Option`, `Result` and `DecodeError`.
- `JsonTree`: the value tree, field lookup, and the `Emit` rule that writes
  the written fields of a record in the record's declared key order.
- `DecimalInt`: `strconv.FormatInt` and `strconv.ParseInt` in base 10, for
  64 bits.
- `DurationCodec`: whole-second durations written as `"Ns"`.
- `TimestampCodec`: `YYYY-MM-DDTHH:MM:SSZ` instants.
- `Base64`: standard base64 with padding.
- `FieldCodec`: the field kinds. These are plain strings, optional and
  by-value int64, JSON-number integers, durations and timestamps, each with
  its omission rule.
- `CivilDate`: the partial publication date.
- One module per record type, each with its encoder, decoder, round-trip
  lemma and test vectors.
- `RecordRegistry`: the closed set of record kinds, dispatch by kind, and
  the record-level laws.

## Model

| member | source | states |
|---|---|---|
| `DecimalInt.ParseFormat` | types_json_test.go:697-705 | Every 64-bit integer written in base 10 parses back to itself. |
| `DecimalInt.FormatParse` | types_json_test.go:29-44 | A canonical decimal literal that parses is exactly what the encoder writes for its value, so each integer has one spelling. |
| `DecimalInt.FormatInt` | types_json_test.go:399 | What is written is `"0"` or an optional minus followed by digits with no leading zero. |
| `DecimalInt.ParseInt` | types_json_test.go:45-86 | A string parses exactly when it is a decimal literal (an optional sign, then at least one digit) whose value lies in the 64-bit range, and it then gives that value. |
| `DecimalInt.ParseIntNonCanonical` | types_json_test.go:45-86 | Spellings the encoder never writes are still read: `"+10"`, `"007"` and `"-0"` give 10, 7 and 0. `"9223372036854775808"` is out of range, while `"-9223372036854775808"` is the smallest 64-bit integer. |
| `DecimalInt.ParseRejectsNonDigit` | types_json_test.go:45-86 | Any character that is neither a digit nor a leading sign makes the parse fail; a non-numeric string is never read as zero. |
| `DecimalInt.ParseIntVectors` | types_json_test.go:29-86 | `"10"` parses to 10, and `"abc"`, `"a"` and `"xyz"` fail. |
| `DurationCodec.FormatDuration` | types_json_test.go:531-556 | A duration is written as a canonical decimal number of seconds ending in `s`. |
| `DurationCodec.ParseDuration` | types_json_test.go:258-271 | Only a decimal literal followed by `s` parses. |
| `DurationCodec.DurationRoundTrip` | types_json_test.go:697-705 | Every duration written parses back to itself. |
| `DurationCodec.DurationCanonical` | types_json_test.go:230-257 | A canonical duration string that parses is exactly what is written for its value. |
| `DurationCodec.DurationVectors` | types_json_test.go:231-271 | 20 hours is `"72000s"`, `"10s"` and `"15s"` parse to 10 and 15 seconds, and `"abc"` and `"xyz"` fail. |
| `DurationCodec.DurationSecondsVectors` | types_json_test.go:541-556 | 5 and 15 seconds are `"5s"` and `"15s"`; `"5s"` and `"20s"` parse back. |
| `TimestampCodec.FormatShape` | types_json_test.go:459 | What is written has the layout `YYYY-MM-DDTHH:MM:SSZ`. |
| `TimestampCodec.ParseRFC3339` | types_json_test.go:206-214 | Only text with the layout parses, and its fields must form a valid UTC instant. |
| `TimestampCodec.ParseOfFormat` | types_json_test.go:454-462 | Reading the layout back gives the written fields when they form a valid instant, and fails otherwise. |
| `TimestampCodec.TimestampRoundTrip` | types_json_test.go:697-705 | Every instant written parses back to itself. |
| `TimestampCodec.TimestampCanonical` | types_json_test.go:206-214 | Text that parses is exactly what is written for the instant it denotes. |
| `TimestampCodec.TimestampVectorEndOf2024` | types_json_test.go:206-214 | 2024-12-31 23:59:59 UTC is `"2024-12-31T23:59:59Z"` both ways. |
| `TimestampCodec.TimestampVectorStartOf2025` | types_json_test.go:574 | 2025-01-01 00:00:00 UTC is `"2025-01-01T00:00:00Z"`. |
| `TimestampCodec.TimestampVectorDec30` | types_json_test.go:492-494 | 2024-12-30 23:59:59 UTC is `"2024-12-30T23:59:59Z"`. |
| `TimestampCodec.TimestampVectorEndOf2025` | types_json_test.go:573 | 2025-12-31 23:59:59 UTC is `"2025-12-31T23:59:59Z"`. |
| `TimestampCodec.TimestampRejectsMissingZone` | types_json_test.go:459 | Text without the `Z` suffix is rejected. |
| `TimestampCodec.TimestampRejectsFeb29` | types_json_test.go:206-214 | The text of February 29 of a common year is rejected. |
| `Base64.Encode` | types_json_test.go:442 | The encoding is four characters per started group of three bytes. |
| `Base64.Decode` | types_json_test.go:172-182 | Once line breaks are removed, text whose length is not a multiple of four fails, and a successful decode gives at most three bytes per four characters. |
| `Base64.DecodeEncode` | types_json_test.go:697-705 | Every byte sequence written as base64 decodes back exactly. |
| `Base64.EncodeUsesAlphabet` | types_json_test.go:442 | The encoding holds only alphabet characters and `=`. |
| `Base64.EncodeHasNoLineBreaks` | types_json_test.go:442 | The encoding holds no `\r` or `\n`, so the decoder's line-break stripping leaves it unchanged. |
| `Base64.Base64SingleByteVectors` | types_json_test.go:174-178 | `"a"`, `"b"` and `"c"` are `"YQ=="`, `"Yg=="` and `"Yw=="` both ways. |
| `Base64.Base64TestVector` | types_json_test.go:440-442 | `"test"` is `"dGVzdA=="` both ways. |
| `Base64.PaddingOnlyAtEnd` | types_json_test.go:172-182 | A group with padding that is followed by more text fails. |
| `Base64.Base64RejectsShortQuantum` | types_json_test.go:172-182 | Text whose length is not a multiple of four fails. |
| `Base64.Base64RejectsInnerPadding` | types_json_test.go:172-182 | `"YQ==YQ=="` fails. |
| `Base64.Base64RejectsForeignChar` | types_json_test.go:172-182 | A character outside the alphabet fails. |
| `Base64.Base64IgnoresUnusedBits` | types_json_test.go:172-182 | The decoder is not strict: `"YR=="` also reads as `"a"`. |
| `JsonTree.Field` | types_json_test.go:13-369 | A field the decoder sees is a non-null value found under its key; a missing key and `null` both leave it absent. |
| `JsonTree.Lookup` | types_json_test.go:13-369 | A lookup finds nothing exactly when no member has the key. Otherwise it finds the value of a member with that key that no later member shares. |
| `JsonTree.LookupBeforeMeaning` | types_json_test.go:13-369 | A lookup finds nothing exactly when no member has the key; otherwise it finds the last member with that key. |
| `JsonTree.LastDuplicateWins` | types_json_test.go:13-369 | Of two members with the same key, the later one decides the field. |
| `JsonTree.FieldIgnoresOtherKey` | types_json_test.go:279-286 | A member under another key leaves a field unchanged, so unknown keys are ignored. |
| `JsonTree.FieldOfEmit` | types_json_test.go:697-705 | Reading back an emitted object gives each declared key's written value, or absence when the key was omitted. |
| `JsonTree.PresentIndices` | types_json_test.go:587-596 | The positions of the written fields are increasing, each one holds a present field, and every present field is among them. |
| `JsonTree.EmitKeyOrder` | types_json_test.go:587-596 | The members written are exactly the declared keys whose fields are present, each with its value, in the declared order. |
| `JsonTree.EmitReadsBack` | types_json_test.go:697-705 | When the declared keys are distinct and no field is written as `null`, each declared key reads back from the emitted object as exactly the field written for it. |
| `JsonTree.EmitNothing` | types_json_test.go:380-386 | When every field is omitted, the object has no members. |
| `FieldCodec.DecodeString` | types_json_test.go:117-130 | A plain-string field decodes to its string; a missing one decodes to `""`; any other JSON kind fails. |
| `FieldCodec.StringField` | types_json_test.go:406-424 | An empty string is omitted; any other string is written as itself. |
| `FieldCodec.OptionalInt64Field` | types_json_test.go:381-402 | An absent bound is omitted. A present one, 0 included, is written as canonical decimal text that parses back to it. |
| `FieldCodec.Int64Field` | types_json_test.go:633-650 | Zero is omitted; any other value is written as canonical decimal text that parses back to it. |
| `FieldCodec.NumberField` | types_json_test.go:404-425 | Zero is omitted; any other integer is written as a JSON number. |
| `FieldCodec.DurationField` | types_json_test.go:523-556 | An offset is written exactly when its record asks for it, as the duration's text. |
| `FieldCodec.TimestampField` | types_json_test.go:446-462 | Go's zero time is omitted; any other instant is written as text in the RFC 3339 layout. |
| `FieldCodec.DecodeOptionalInt64` | types_json_test.go:29-86 | A missing bound is absent rather than zero. A present bound must be a decimal string; otherwise the record fails with an error naming the key. |
| `FieldCodec.DecodeInt64` | types_json_test.go:295-319 | A by-value int64 decodes to its parsed value, a missing one to 0, and a bad string fails. |
| `FieldCodec.DecodeNumber` | types_json_test.go:117-130 | An integer written as a JSON number must be in the field's range; a missing one is 0. |
| `FieldCodec.DecodeDuration` | types_json_test.go:230-271 | A duration field decodes to the parsed duration, a missing one to 0, and a bad string fails. |
| `FieldCodec.DecodeTimestamp` | types_json_test.go:206-214 | A timestamp field decodes to the parsed instant, a missing one to Go's zero time, and bad text fails. |
| `FieldCodec.OptionalInt64FieldRoundTrip` | types_json_test.go:697-705 | An optional int64, whether absent or present with any value including 0, reads back unchanged. |
| `FieldCodec.Int64FieldRoundTrip` | types_json_test.go:697-705 | A by-value int64 reads back unchanged, including 0, which is omitted. |
| `FieldCodec.DurationFieldRoundTrip` | types_json_test.go:697-705 | A duration reads back unchanged whether it was written or, being zero, omitted. |
| `FieldCodec.TimestampFieldRoundTrip` | types_json_test.go:697-705 | An instant reads back unchanged, including Go's zero time, which is omitted. |
| `CivilDate.EncodeDate` | types_json_test.go:422 | A date is written as an object with exactly three distinct keys. |
| `CivilDate.DateField` | types_json_test.go:404-425 | The zero date is omitted; any other date is written as its three-part object. |
| `CivilDate.DecodeDate` | types_json_test.go:131-155 | A missing date is the zero date, and a present date without `year` fails. With a year present, the date decodes exactly when year, month and day each decode as 64-bit JSON numbers, and its parts are then their values. |
| `CivilDate.DateRoundTrip` | types_json_test.go:697-705 | Every date, zero or not, reads back unchanged. |
| `CivilDate.DatePresenceLaw` | types_json_test.go:131-155 | For any year y, month m and day d: year alone gives y-0-0, and year with month gives y-m-0. Month and day without a year fail. |
| `CivilDate.DateVector` | types_json_test.go:119-123 | `{"year":2023,"month":10,"day":26}` decodes to 2023-10-26. |
| `SchemaCodec.DecodeSchemaOfFields` | types_json_test.go:29-44 | A Schema decodes from any object whose six bound fields carry its values, whatever their order and whatever else the object holds. |
| `SchemaCodec.EncodeSchema` | types_json_test.go:387-402 | Each of the six bounds reads back from the written object as its own field: absent when unset, otherwise its decimal text. |
| `SchemaCodec.DecodeSchema` | types_json_test.go:29-86 | An object decodes exactly when all six bounds decode, and each bound is then what its field decodes to. |
| `SchemaCodec.SchemaRoundTrip` | types_json_test.go:697-705 | Every Schema reads back unchanged; a bound present with value 0 stays present. |
| `SchemaCodec.SchemaEmptyIsEmptyObject` | types_json_test.go:22-28 | The empty Schema encodes to `{}`, and `{}` decodes to it. |
| `SchemaCodec.SchemaIgnoresUnknownKey` | types_json_test.go:29-44 | A member under an undeclared key does not change the decode. |
| `SchemaCodec.SchemaEncodeVector` | types_json_test.go:387-402 | The six bounds are written as decimal strings in sorted key order. |
| `SchemaCodec.SchemaDecodeVector` | types_json_test.go:29-44 | The decode test vector gives the expected six bounds. |
| `SchemaCodec.SchemaRejectsBadBound` | types_json_test.go:45-86 | `"abc"` under any of the six bound keys fails the whole decode. |
| `CitationCodec.CitationOfFields` | types_json_test.go:117-162 | A citation decodes exactly when every one of its fields decodes, and each of its fields is then what that field decodes to. |
| `CitationCodec.EncodeCitation` | types_json_test.go:412-425 | Each field reads back from the written object as its own field: the date, the two indexes, the license, the title and the URI, each omitted when zero. |
| `CitationCodec.DecodeCitationOfFields` | types_json_test.go:117-130 | A Citation decodes from any object whose fields each decode to its values, whatever their order and whatever else the object holds. |
| `CitationCodec.CitationRoundTrip` | types_json_test.go:697-705 | Every Citation reads back unchanged. |
| `CitationCodec.CitationEmptyIsEmptyObject` | types_json_test.go:404-411 | The empty Citation encodes to `{}`, and `{}` decodes to it. |
| `CitationCodec.CitationIgnoresUnknownKey` | types_json_test.go:117-130 | A member under an undeclared key does not change the decode. |
| `CitationCodec.CitationEncodeVector` | types_json_test.go:412-425 | `publicationDate` comes first with its keys in the order day, month, year, then the other fields. |
| `CitationCodec.CitationDecodeVector` | types_json_test.go:117-130 | The full decode vector gives the expected citation. |
| `CitationCodec.CitationRejectsDateWithoutYear` | types_json_test.go:131-137 | A publication date without a year fails the whole citation. |
| `CitationCodec.CitationPartialDates` | types_json_test.go:138-155 | A year-only date and a year-and-month date decode, with the missing parts set to 0. |
| `TokensInfoCodec.EncodeTokenIds` | types_json_test.go:439-442 | Each token id is written, in order, as its decimal string. |
| `TokensInfoCodec.DecodeTokenIds` | types_json_test.go:183-189 | The ids decode exactly when every item is a decimal string; the result is the items' values in order. |
| `TokensInfoCodec.EncodeTokens` | types_json_test.go:440-442 | Each token is written, in order, as its base64 text. |
| `TokensInfoCodec.ItemToken` | types_json_test.go:172-182 | An item is accepted exactly when it is `null` (an empty byte string) or valid base64 text (its decoded bytes). |
| `TokensInfoCodec.DecodeTokens` | types_json_test.go:172-182 | The tokens decode exactly when every item is `null` or base64 text; the result is each item's bytes, in order. |
| `TokensInfoCodec.TokenIdsRoundTrip` | types_json_test.go:697-705 | A list of token ids reads back unchanged. |
| `TokensInfoCodec.TokensRoundTrip` | types_json_test.go:697-705 | A list of tokens reads back unchanged. |
| `TokensInfoCodec.DecodeTokenIdsField` | types_json_test.go:183-189 | A missing `tokenIds` is the empty list. An array decodes to its ids when every item decodes and fails with an error naming the key otherwise, and any other kind fails with a type error. |
| `TokensInfoCodec.DecodeTokensField` | types_json_test.go:172-182 | A missing `tokens` is the empty list. An array decodes to its tokens when every item decodes and fails with an error naming the key otherwise, and any other kind fails with a type error. |
| `TokensInfoCodec.TokensInfoOfFields` | types_json_test.go:172-196 | A TokensInfo decodes exactly when its role, ids and tokens all decode, and each is then what its field decodes to. |
| `TokensInfoCodec.EncodeTokensInfo` | types_json_test.go:435-445 | The role, ids and tokens each read back from the written object as their own fields. |
| `TokensInfoCodec.DecodeTokensInfoOfFields` | types_json_test.go:172-182 | A TokensInfo decodes from any object whose three fields decode to its values. |
| `TokensInfoCodec.TokensInfoRoundTrip` | types_json_test.go:697-705 | Every TokensInfo reads back unchanged. |
| `TokensInfoCodec.TokensInfoEmptyIsEmptyObject` | types_json_test.go:427-434 | The empty TokensInfo encodes to `{}`, and `{}` decodes to it. |
| `TokensInfoCodec.TokensInfoIgnoresUnknownKey` | types_json_test.go:172-182 | A member under an undeclared key does not change the decode. |
| `TokensInfoCodec.TokensInfoEncodeVector` | types_json_test.go:435-445 | The keys are written in the order `tokenIds`, `role`, `tokens`. |
| `TokensInfoCodec.TokensNullItemVector` | types_json_test.go:172-182 | `[null,"YQ=="]` decodes to an empty byte string followed by the bytes of `"a"`. |
| `TokensInfoCodec.TokensVector` | types_json_test.go:174-178 | `["YQ==","Yg==","Yw=="]` decodes to the bytes of `"a"`, `"b"` and `"c"`. |
| `TokensInfoCodec.TokensInfoDecodeVector` | types_json_test.go:172-182 | The full decode vector gives the expected TokensInfo. |
| `TokensInfoCodec.TokensInfoRejectsBadTokenId` | types_json_test.go:183-189 | One bad id, `"a"`, fails the whole record. |
| `CachedContentConfigCodec.DecodeCachedContentConfig` | types_json_test.go:198-221 | A config decodes exactly when its `expireTime` decodes, and its expiry is then that instant. |
| `CachedContentConfigCodec.EncodeCachedContentConfig` | types_json_test.go:446-462 | The expiry reads back from the written object as its own field: absent when unset, otherwise RFC 3339 text. |
| `CachedContentConfigCodec.CachedContentConfigRoundTrip` | types_json_test.go:697-705 | Every cached-content config reads back unchanged. |
| `CachedContentConfigCodec.CachedContentConfigVectors` | types_json_test.go:446-462 | A config with no expiry is `{}` both ways, and the 2024-12-31 expiry is written and read as RFC 3339 text. The same vectors hold for the update config at lines 506-522. |
| `GenerateContentResponseCodec.DecodeGenerateContentResponse` | types_json_test.go:463-479 | A response decodes exactly when its `createTime` decodes, and its creation instant is then that instant. |
| `GenerateContentResponseCodec.EncodeGenerateContentResponse` | types_json_test.go:463-479 | The creation instant reads back from the written object as its own field: absent when unset, otherwise RFC 3339 text. |
| `GenerateContentResponseCodec.GenerateContentResponseRoundTrip` | types_json_test.go:697-705 | Every response reads back unchanged. |
| `GenerateContentResponseCodec.GenerateContentResponseVectors` | types_json_test.go:463-479 | An unset `createTime` gives `{}`, and a set one is written as RFC 3339 text. |
| `TunedModelInfoCodec.DecodeTunedModelInfo` | types_json_test.go:480-497 | A TunedModelInfo decodes exactly when both of its instants decode, and each is then what its field decodes to. |
| `TunedModelInfoCodec.EncodeTunedModelInfo` | types_json_test.go:480-497 | Both instants read back from the written object as their own fields, each absent when unset. |
| `TunedModelInfoCodec.TunedModelInfoRoundTrip` | types_json_test.go:697-705 | Every TunedModelInfo reads back unchanged. |
| `TunedModelInfoCodec.TunedModelInfoVectors` | types_json_test.go:480-497 | Unset instants give `{}`; both instants are written in the order `createTime`, `updateTime`. |
| `VideoMetadataCodec.DecodeVideoMetadata` | types_json_test.go:222-278 | A clip decodes exactly when both offsets decode, and each offset is then what its field decodes to. |
| `VideoMetadataCodec.EncodeVideoMetadata` | types_json_test.go:523-556 | The end offset reads back as written exactly when it is non-zero, and the start offset exactly when either offset is non-zero. |
| `VideoMetadataCodec.VideoMetadataKeysWritten` | types_json_test.go:523-556 | `endOffset` is written exactly when the end is non-zero, and `startOffset` exactly when either offset is non-zero. |
| `VideoMetadataCodec.VideoMetadataRoundTrip` | types_json_test.go:697-705 | Every clip reads back unchanged, including an end-only clip whose zero start is written as `"0s"`. |
| `VideoMetadataCodec.VideoMetadataIgnoresUnknownKey` | types_json_test.go:222-257 | A member under an undeclared key does not change the decode. |
| `VideoMetadataCodec.VideoMetadataEncodeVectors` | types_json_test.go:523-556 | The four encode vectors: `{}`; end `"72000s"` before start `"10s"`; start `"5s"` alone; end `"15s"` with start `"0s"`. |
| `VideoMetadataCodec.VideoMetadataDecodeBoth` | types_json_test.go:230-239 | `"10s"` and `"20s"` decode to 10 and 20 seconds. |
| `VideoMetadataCodec.VideoMetadataDecodeStartOnly` | types_json_test.go:222-248 | `{}` decodes to the empty clip, and a start-only clip has end 0. |
| `VideoMetadataCodec.VideoMetadataDecodeEndOnly` | types_json_test.go:249-257 | An end-only clip has start 0. |
| `VideoMetadataCodec.VideoMetadataRejects` | types_json_test.go:258-271 | `"abc"` as the start offset or `"xyz"` as the end offset fails the decode. |
| `FileCodec.DecodeFileStatus` | types_json_test.go:581-583 | A present error status must be an object, and its message is its `message` field. |
| `FileCodec.EncodeFileStatus` | types_json_test.go:565-586 | The error message reads back from the written status as its own field. |
| `FileCodec.ErrorFieldRoundTrip` | types_json_test.go:697-705 | An error status, absent or present, reads back unchanged. |
| `FileCodec.DecodeVideoMetadataField` | types_json_test.go:580-583 | The free-form video metadata is kept as the object's members; a value of another kind fails. |
| `FileCodec.FileKeysDistinct` | types_json_test.go:583 | No key of a File is declared twice. |
| `FileCodec.FileOfFields` | types_json_test.go:566-583 | A File decodes exactly when all fourteen of its fields decode, and each of its fields is then what that field decodes to. |
| `FileCodec.EncodeFile` | types_json_test.go:565-596 | Each of the fourteen fields reads back from the written object as its own field, each omitted when zero. |
| `FileCodec.DecodeFileOfFields` | types_json_test.go:566-583 | A File decodes from any object whose fields carry its values, whatever their order and whatever else it holds. |
| `FileCodec.FileInstantsOfEncode` | types_json_test.go:587-595 | Each instant of an encoded File is written exactly when it is set. |
| `FileCodec.FileRoundTrip` | types_json_test.go:697-705 | Every File reads back unchanged. |
| `FileCodec.FileEmptyIsEmptyObject` | types_json_test.go:558-564 | The empty File encodes to `{}`, and `{}` decodes to it. |
| `FileCodec.FileEncodeVector` | types_json_test.go:565-586 | The full File is written in the declared order, ending with `expirationTime`, `createTime`, `updateTime`. |
| `FileCodec.FileWithEmptyTimeVector` | types_json_test.go:587-596 | A File with only a name and a size writes those two keys and no instant. |
| `FileCodec.FileIgnoresUnknownKey` | types_json_test.go:566-583 | A member under an undeclared key does not change the decode. |
| `ContextWindowCodec.DecodeSlidingWindow` | types_json_test.go:597-613 | A window decodes exactly when its `targetTokens` decodes, and its target is then that value. |
| `ContextWindowCodec.EncodeSlidingWindow` | types_json_test.go:597-613 | The target reads back from the written object as its own field: absent when unset, otherwise decimal text. |
| `ContextWindowCodec.SlidingWindowRoundTrip` | types_json_test.go:697-705 | Every SlidingWindow reads back unchanged. |
| `ContextWindowCodec.DecodeSlidingWindowField` | types_json_test.go:622-631 | A missing nested window is absent, and a present one decodes exactly when the window decodes. |
| `ContextWindowCodec.DecodeCompressionConfig` | types_json_test.go:614-631 | A compression config decodes exactly when both its trigger and its nested window decode, and each is then what its field decodes to. |
| `ContextWindowCodec.EncodeCompressionConfig` | types_json_test.go:614-631 | The trigger and the nested window read back from the written object as their own fields. |
| `ContextWindowCodec.CompressionConfigRoundTrip` | types_json_test.go:697-705 | Every compression config, including its nested window, reads back unchanged. |
| `ContextWindowCodec.ContextWindowVectors` | types_json_test.go:597-631 | The empty window and config give `{}`; `targetTokens` is `"1024"`; the config writes `triggerTokens` and then the nested window. |
| `CheckpointCodec.DecodeCheckpoint` | types_json_test.go:287-319 | A checkpoint decodes exactly when its id, epoch and step all decode. Its id is then the string, and its epoch and step the parsed values of their decimal strings. |
| `CheckpointCodec.EncodeCheckpoint` | types_json_test.go:633-650 | The id, epoch and step read back from the written object as their own fields, each omitted when zero. |
| `CheckpointCodec.CheckpointRoundTrip` | types_json_test.go:697-705 | Every Checkpoint reads back unchanged, including epoch 0 and step 0, which are omitted. |
| `CheckpointCodec.CheckpointEmptyIsEmptyObject` | types_json_test.go:633-639 | A checkpoint with empty id, epoch 0 and step 0 encodes to `{}`, and `{}` decodes to it. |
| `CheckpointCodec.CheckpointEncodeVector` | types_json_test.go:640-650 | The keys are written in the order `checkpointId`, `epoch`, `step`, with the counts as decimal strings. |
| `CheckpointCodec.CheckpointDecodeVector` | types_json_test.go:295-305 | The full decode vector gives `id123`, epoch 10 and step 100. |
| `CheckpointCodec.CheckpointRejects` | types_json_test.go:306-319 | `"abc"` as the epoch or `"xyz"` as the step fails the decode. |
| `CheckpointCodec.CheckpointIgnoresUnknownKey` | types_json_test.go:295-305 | A member under an undeclared key does not change the decode. |
| `RecordRegistry.EncodeRecord` | types_json_test.go:652-686 | Every record, of every kind, is written as a JSON object. |
| `RecordRegistry.DecodeRecord` | types_json_test.go:321-357 | A successful decode always gives a record of the kind that was asked for. |
| `RecordRegistry.RecordRoundTrip` | types_json_test.go:697-705 | Every record of every kind, encoded and then decoded as its own kind, comes back equal. |
| `RecordRegistry.EmptyRecordIsEmptyObject` | types_json_test.go:371-639 | The zero record of every kind encodes to `{}`, and `{}` decodes to it. |
| `RecordRegistry.EmptyObjectIffZero` | types_json_test.go:371-639 | A record encodes to `{}` exactly when it is the zero record of its kind. |

Two of the test vectors fix which zero fields are omitted:

- The empty checkpoint, whose epoch and step are 0, encodes to `{}`
  (types_json_test.go:633-638), so `CheckpointCodec` omits zero counts.
- The empty citation, whose start and end index are 0, encodes to `{}`
  (types_json_test.go:404-411), so zero indexes are omitted.

## Left out

- JSON text: byte-level lexing, whitespace and the truncated-document syntax errors at types_json_test.go:101-107, 156-162, 190-196, 215-221 and 272-278. The model starts from a parsed value tree. A JSON number is `JNum(n)` with an integer `n`, so a number with a fraction or an exponent cannot be written down. Go rejects `10.5` as a Citation index with a type error, and the model has no such input.
- The floating-point Schema bounds `maximum` and `minimum` and their rendering (`10.0` written as `10`). The model reads them as undeclared keys, so the failures at types_json_test.go:87-100 are not modelled.
- SchemaCodec.Schema: only the six int64 bounds are modelled, not the other Schema fields (type, properties, items, …), whose codec is Go's default mapping.
- Candidate and its pass-through of unknown enum strings (types_json_test.go:279-286): an enum is a plain string, and `FieldCodec.DecodeString` already keeps any string.
- CachedContent (types_json_test.go:498-505): only its empty encoding is asserted, and its fields are not part of this model.
- DurationCodec.ParseDuration: whole seconds only. Fractional seconds (`"1.5s"`) and durations smaller than a second are not modelled, because no test uses them.
- TimestampCodec.ParseRFC3339: only the UTC layout with `Z` and no fractional seconds. Numeric zone offsets, fractional seconds and time-zone normalisation are left out, and an instant is its UTC calendar fields rather than a point on a time line.
- CitationCodec.Citation: `startIndex` and `endIndex` are taken to be 32-bit JSON numbers and the date parts 64-bit JSON numbers, because the record definitions are not part of this model.
- FileCodec.File: the free-form `videoMetadata` map is kept as the object's members in their order. Go would sort a map's keys on encoding, and the model does not.
- JsonTree.LastDuplicateWins: the last member with a key replaces the field whole, and a `null` makes it absent. Go's `encoding/json` does neither for every field. A `null` into a field that is not a pointer, slice or map leaves it unchanged, so `{"title":"A","title":null}` keeps `"A"` in Go, while the model reads an empty title. A repeated object or map is merged into the value already decoded, so `{"error":{"message":"a"},"error":{}}` keeps message `"a"` in Go, and two `videoMetadata` maps are merged; the model keeps only the last one. `FieldCodec.DecodeString`, `FileCodec.DecodeFileStatus` and `FileCodec.DecodeVideoMetadataField` inherit this.
- JsonTree.Lookup: keys are matched exactly. Go's `encoding/json` falls back to a case-insensitive match of a struct field's name, so `{"MaxLength":"3"}` fills `maxLength` in Go. The model ignores such a key instead, and so do `SchemaCodec.SchemaIgnoresUnknownKey`, `CitationCodec.CitationIgnoresUnknownKey`, `TokensInfoCodec.TokensInfoIgnoresUnknownKey`, `VideoMetadataCodec.VideoMetadataIgnoresUnknownKey`, `FileCodec.FileIgnoresUnknownKey` and `CheckpointCodec.CheckpointIgnoresUnknownKey`. Their promise holds in Go only for keys that differ from every declared key even after case folding.
- RecordRegistry.RecordRoundTrip: a Dafny sequence has a single empty value, while Go tells a nil slice or map from an empty one, and `cmp.Diff` at types_json_test.go:703 compares them as different. A record holding an empty but non-nil list or map is omitted on encoding and decodes back as nil, so in Go its round trip fails. The model proves the round trip with nil and empty identified. It also keeps a JSON number in the free-form `videoMetadata` map of a File as the integer it was. Go decodes a number in a `map[string]any` as a `float64`, so a map holding `"n": 1` as an `int` comes back as `float64(1)` and fails `cmp.Diff` at types_json_test.go:703.
- TokensInfoCodec.TokensInfoRoundTrip: identifies nil and empty `tokenIds` and `tokens`, as described for the registry's round trip above.
- FileCodec.FileRoundTrip: identifies a nil and an empty `videoMetadata` map, as described for the registry's round trip above. It also keeps the integer JSON numbers of that map as integers, where Go reads them back as `float64` values, so Go's round trip fails for a map holding an `int`.
- CachedContentConfigCodec.CachedContentConfig: only `expireTime` is modelled, the one field the tables set (types_json_test.go:207-210, 455-459, 515-517). The configurations' other fields are not part of this model.
- GenerateContentResponseCodec.GenerateContentResponse: only `createTime` is modelled. Candidates, usage metadata and the response's other fields are not part of this model.
- TunedModelInfoCodec.TunedModelInfo: only `createTime` and `updateTime` are modelled. The tuned model's other fields are not part of this model.
- FileCodec.FileStatus: only `message` is modelled. The status code and details are not part of this model.
- Go's reflection-driven `encoding/json`, `reflect.New`, `cmp.Diff` and the test-table loops. These are library and harness plumbing; the registry's dispatch by kind stands in for the `switch tt.target`.
- The Go error values themselves: the model's `DecodeError` names the failing key and its kind, but does not reproduce Go's error messages.
- The `MarshalJSON`/`UnmarshalJSON` implementations of the record types, the network client and request building are not modelled.
