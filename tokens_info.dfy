/** The result of inspecting the tokens of a text: the role of the content,
    the token ids (64-bit integers, each carried as a decimal string) and
    the tokens' bytes (each carried as base64 text). */
module TokensInfoCodec {
  import opened Wrappers
  import opened JsonTree
  import opened DecimalInt
  import opened FieldCodec
  import B64 = Base64

  datatype TokensInfo = TokensInfo(role: string, tokenIds: seq<int64>, tokens: seq<seq<B64.byte>>)

  const EmptyTokensInfo := TokensInfo("", [], [])

  function EncodeTokenIds(ids: seq<int64>): (items: seq<Json>)
    ensures |items| == |ids|
    ensures forall i :: 0 <= i < |ids| ==> items[i] == JStr(FormatInt(ids[i]))
  {
    if |ids| == 0 then [] else EncodeTokenIds(ids[..|ids| - 1]) + [JStr(FormatInt(ids[|ids| - 1]))]
  }

  /** The id an item carries: a decimal string within 64 bits. */
  function ItemId(item: Json): (r: Option<int64>)
    ensures r.Some? <==> item.JStr? && ParseInt(item.s).Some?
    ensures r.Some? ==> ParseInt(item.s) == r
  {
    if item.JStr? then ParseInt(item.s) else None
  }

  /** All or nothing: every item must be a decimal string, and the ids are
      the items' values in order. */
  function DecodeTokenIds(items: seq<Json>): (r: Option<seq<int64>>)
    ensures r.Some? <==> forall i :: 0 <= i < |items| ==> ItemId(items[i]).Some?
    ensures r.Some? ==> |r.value| == |items|
    ensures r.Some? ==> forall i :: 0 <= i < |items| ==> ItemId(items[i]) == Some(r.value[i])
  {
    if |items| == 0 then Some([])
    else
      var last := items[|items| - 1];
      match DecodeTokenIds(items[..|items| - 1])
      case None => None
      case Some(ids) =>
        match ItemId(last)
        case None => None
        case Some(id) => Some(ids + [id])
  }

  function EncodeTokens(tokens: seq<seq<B64.byte>>): (items: seq<Json>)
    ensures |items| == |tokens|
    ensures forall i :: 0 <= i < |tokens| ==> items[i] == JStr(B64.Encode(tokens[i]))
  {
    if |tokens| == 0 then [] else EncodeTokens(tokens[..|tokens| - 1]) + [JStr(B64.Encode(tokens[|tokens| - 1]))]
  }

  /** The bytes an item carries: base64 text, or `null`, which leaves the
      element empty as it does for a byte slice in Go. */
  function ItemToken(item: Json): (r: Option<seq<B64.byte>>)
    ensures r.Some? <==> item.JNull? || (item.JStr? && B64.Decode(item.s).Some?)
    ensures item.JNull? ==> r == Some([])
    ensures item.JStr? ==> r == B64.Decode(item.s)
  {
    match item
    case JNull => Some([])
    case JStr(s) => B64.Decode(s)
    case _ => None
  }

  /** All or nothing: every item must be base64 text or `null`, and the
      tokens are the items' bytes in order. */
  function DecodeTokens(items: seq<Json>): (r: Option<seq<seq<B64.byte>>>)
    ensures r.Some? <==> forall i :: 0 <= i < |items| ==> ItemToken(items[i]).Some?
    ensures r.Some? ==> |r.value| == |items|
    ensures r.Some? ==> forall i :: 0 <= i < |items| ==> ItemToken(items[i]) == Some(r.value[i])
  {
    if |items| == 0 then Some([])
    else
      var last := items[|items| - 1];
      match DecodeTokens(items[..|items| - 1])
      case None => None
      case Some(tokens) =>
        match ItemToken(last)
        case None => None
        case Some(token) => Some(tokens + [token])
  }

  lemma TokenIdsRoundTrip(ids: seq<int64>)
    ensures DecodeTokenIds(EncodeTokenIds(ids)) == Some(ids)
  {
    var items := EncodeTokenIds(ids);
    forall i | 0 <= i < |items| ensures items[i].JStr? && ParseInt(items[i].s) == Some(ids[i]) {
      ParseFormat(ids[i]);
    }
    var r := DecodeTokenIds(items);
    assert r.Some?;
    assert r.value == ids by {
      forall i | 0 <= i < |ids| ensures r.value[i] == ids[i] {
        assert ParseInt(items[i].s) == Some(r.value[i]);
      }
    }
  }

  lemma TokensRoundTrip(tokens: seq<seq<B64.byte>>)
    ensures DecodeTokens(EncodeTokens(tokens)) == Some(tokens)
  {
    var items := EncodeTokens(tokens);
    forall i | 0 <= i < |items| ensures items[i].JStr? && B64.Decode(items[i].s) == Some(tokens[i]) {
      B64.DecodeEncode(tokens[i]);
    }
    var r := DecodeTokens(items);
    assert r.Some?;
    assert r.value == tokens by {
      forall i | 0 <= i < |tokens| ensures r.value[i] == tokens[i] {
        assert ItemToken(items[i]) == Some(r.value[i]);
      }
    }
  }

  /** Empty lists are omitted. */
  function TokenIdsField(ids: seq<int64>): Option<Json> {
    if |ids| == 0 then None else Some(JArr(EncodeTokenIds(ids)))
  }

  function TokensField(tokens: seq<seq<B64.byte>>): Option<Json> {
    if |tokens| == 0 then None else Some(JArr(EncodeTokens(tokens)))
  }

  /** The token ids are written first, then the role and the tokens. */
  const TokensInfoKeys: seq<string> := ["tokenIds", "role", "tokens"]

  /** What is written for each declared key. */
  function TokensInfoFields(t: TokensInfo): (vs: seq<Option<Json>>)
    ensures |vs| == |TokensInfoKeys|
  {
    [TokenIdsField(t.tokenIds), StringField(t.role), TokensField(t.tokens)]
  }

  function EncodeTokensInfo(t: TokensInfo): (j: Json)
    ensures j.JObj? && |j.members| <= |TokensInfoKeys|
    ensures Field(j.members, "tokenIds") == TokenIdsField(t.tokenIds)
    ensures Field(j.members, "role") == StringField(t.role)
    ensures Field(j.members, "tokens") == TokensField(t.tokens)
  {
    FieldOfEmit(TokensInfoKeys, TokensInfoFields(t), 0);
    FieldOfEmit(TokensInfoKeys, TokensInfoFields(t), 1);
    FieldOfEmit(TokensInfoKeys, TokensInfoFields(t), 2);
    JObj(Emit(TokensInfoKeys, TokensInfoFields(t)))
  }

  function DecodeTokenIdsField(v: Option<Json>): (r: Result<seq<int64>>)
    ensures v.None? ==> r == Ok([])
    ensures r.Ok? && v.Some? ==> v.value.JArr? && DecodeTokenIds(v.value.items) == Some(r.value)
    ensures v.Some? && v.value.JArr? && DecodeTokenIds(v.value.items).None? ==> r == Err(FormatError("tokenIds"))
    ensures v.Some? && v.value.JArr? && DecodeTokenIds(v.value.items).Some? ==> r == Ok(DecodeTokenIds(v.value.items).value)
    ensures v.Some? && !v.value.JArr? ==> r == Err(TypeError("tokenIds"))
  {
    match v
    case None => Ok([])
    case Some(JArr(items)) =>
      (match DecodeTokenIds(items)
       case Some(ids) => Ok(ids)
       case None => Err(FormatError("tokenIds")))
    case Some(_) => Err(TypeError("tokenIds"))
  }

  function DecodeTokensField(v: Option<Json>): (r: Result<seq<seq<B64.byte>>>)
    ensures v.None? ==> r == Ok([])
    ensures r.Ok? && v.Some? ==> v.value.JArr? && DecodeTokens(v.value.items) == Some(r.value)
    ensures v.Some? && v.value.JArr? && DecodeTokens(v.value.items).None? ==> r == Err(FormatError("tokens"))
    ensures v.Some? && v.value.JArr? && DecodeTokens(v.value.items).Some? ==> r == Ok(DecodeTokens(v.value.items).value)
    ensures v.Some? && !v.value.JArr? ==> r == Err(TypeError("tokens"))
  {
    match v
    case None => Ok([])
    case Some(JArr(items)) =>
      (match DecodeTokens(items)
       case Some(tokens) => Ok(tokens)
       case None => Err(FormatError("tokens")))
    case Some(_) => Err(TypeError("tokens"))
  }

  function TokensInfoOfFields(role: Option<Json>, tokenIds: Option<Json>, tokens: Option<Json>): (r: Result<TokensInfo>)
    ensures r.Ok? <==>
      DecodeString("role", role).Ok? && DecodeTokenIdsField(tokenIds).Ok? && DecodeTokensField(tokens).Ok?
    ensures r.Ok? ==>
      DecodeString("role", role) == Ok(r.value.role) &&
      DecodeTokenIdsField(tokenIds) == Ok(r.value.tokenIds) &&
      DecodeTokensField(tokens) == Ok(r.value.tokens)
  {
    var role :- DecodeString("role", role);
    var ids :- DecodeTokenIdsField(tokenIds);
    var tokens :- DecodeTokensField(tokens);
    Ok(TokensInfo(role, ids, tokens))
  }

  function DecodeTokensInfo(j: Json): (r: Result<TokensInfo>)
    ensures j.JNull? ==> r == Ok(EmptyTokensInfo)
    ensures !j.JNull? && !j.JObj? ==> r == Err(NotAnObject)
  {
    match j
    case JNull => Ok(EmptyTokensInfo)
    case JObj(ms) => TokensInfoOfFields(Field(ms, "role"), Field(ms, "tokenIds"), Field(ms, "tokens"))
    case _ => Err(NotAnObject)
  }

  lemma TokenIdsFieldRoundTrip(ids: seq<int64>)
    ensures DecodeTokenIdsField(TokenIdsField(ids)) == Ok(ids)
  {
    TokenIdsRoundTrip(ids);
  }

  lemma TokensFieldRoundTrip(tokens: seq<seq<B64.byte>>)
    ensures DecodeTokensField(TokensField(tokens)) == Ok(tokens)
  {
    TokensRoundTrip(tokens);
  }

  lemma DecodeTokensInfoOfFields(ms: seq<Member>, t: TokensInfo)
    requires DecodeString("role", Field(ms, "role")) == Ok(t.role)
    requires DecodeTokenIdsField(Field(ms, "tokenIds")) == Ok(t.tokenIds)
    requires DecodeTokensField(Field(ms, "tokens")) == Ok(t.tokens)
    ensures DecodeTokensInfo(JObj(ms)) == Ok(t)
  {
  }

  lemma TokensInfoRoundTrip(t: TokensInfo)
    ensures DecodeTokensInfo(EncodeTokensInfo(t)) == Ok(t)
  {
    var vs := TokensInfoFields(t);
    FieldOfEmit(TokensInfoKeys, vs, 0);
    FieldOfEmit(TokensInfoKeys, vs, 1);
    FieldOfEmit(TokensInfoKeys, vs, 2);
    TokenIdsFieldRoundTrip(t.tokenIds);
    TokensFieldRoundTrip(t.tokens);
    DecodeTokensInfoOfFields(Emit(TokensInfoKeys, vs), t);
  }

  lemma TokensInfoEmptyIsEmptyObject()
    ensures EncodeTokensInfo(EmptyTokensInfo) == JObj([])
    ensures DecodeTokensInfo(JObj([])) == Ok(EmptyTokensInfo)
  {
    EmitNothing(TokensInfoKeys, TokensInfoFields(EmptyTokensInfo), |TokensInfoKeys|);
  }

  lemma TokensInfoIgnoresUnknownKey(ms: seq<Member>, k: string, v: Json)
    requires k != "role" && k != "tokenIds" && k != "tokens"
    ensures DecodeTokensInfo(JObj(ms + [(k, v)])) == DecodeTokensInfo(JObj(ms))
  {
    FieldIgnoresOtherKey(ms, k, v, "role");
    FieldIgnoresOtherKey(ms, k, v, "tokenIds");
    FieldIgnoresOtherKey(ms, k, v, "tokens");
  }

  lemma TokenIdsVector()
    ensures EncodeTokenIds([1, 2, 3]) == [JStr("1"), JStr("2"), JStr("3")]
  {
    var items := EncodeTokenIds([1, 2, 3]);
    assert items[0] == JStr(FormatInt(1));
    assert items[1] == JStr(FormatInt(2));
    assert items[2] == JStr(FormatInt(3));
  }

  lemma TokensFieldVector()
    ensures TokensField([[116, 101, 115, 116]]) == Some(JArr([JStr("dGVzdA==")]))
  {
    B64.Base64TestVector();
    var tokens := EncodeTokens([[116, 101, 115, 116]]);
    assert tokens[0] == JStr(B64.Encode([116, 101, 115, 116]));
    assert tokens == [JStr("dGVzdA==")];
  }

  lemma TokensInfoEncodeVector()
    ensures EncodeTokensInfo(TokensInfo("user", [1, 2, 3], [[116, 101, 115, 116]])) ==
      JObj([("tokenIds", JArr([JStr("1"), JStr("2"), JStr("3")])), ("role", JStr("user")),
            ("tokens", JArr([JStr("dGVzdA==")]))])
  {
    TokenIdsVector();
    TokensFieldVector();
    assert EmitFirst(["tokenIds", "role", "tokens"],
                     [Some(JArr([JStr("1"), JStr("2"), JStr("3")])), Some(JStr("user")), Some(JArr([JStr("dGVzdA==")]))], 3) ==
      [("tokenIds", JArr([JStr("1"), JStr("2"), JStr("3")])), ("role", JStr("user")),
       ("tokens", JArr([JStr("dGVzdA==")]))];
  }

  lemma TokensItemsVector()
    ensures EncodeTokens([[97], [98], [99]]) == [JStr("YQ=="), JStr("Yg=="), JStr("Yw==")]
  {
    B64.Base64SingleByteVectors();
    var items := EncodeTokens([[97], [98], [99]]);
    assert items[0] == JStr(B64.Encode([97]));
    assert items[1] == JStr(B64.Encode([98]));
    assert items[2] == JStr(B64.Encode([99]));
  }

  lemma TokensVector()
    ensures DecodeTokensField(Some(JArr([JStr("YQ=="), JStr("Yg=="), JStr("Yw==")]))) == Ok([[97], [98], [99]])
  {
    TokensItemsVector();
    TokensRoundTrip([[97], [98], [99]]);
  }

  /** A `null` item reads as an empty byte string, and the other items are
      decoded as usual. */
  lemma TokensNullItemVector()
    ensures DecodeTokensField(Some(JArr([JNull, JStr("YQ==")]))) == Ok([[], [97]])
  {
    B64.Base64SingleByteVectors();
    var items := [JNull, JStr("YQ==")];
    var r := DecodeTokens(items);
    assert ItemToken(items[0]) == Some([]);
    assert ItemToken(items[1]) == Some([97]);
    assert r.value == [[], [97]];
  }

  lemma TokenIdsFieldVector()
    ensures DecodeTokenIdsField(Some(JArr([JStr("1"), JStr("2"), JStr("3")]))) == Ok([1, 2, 3])
  {
    TokenIdsFieldRoundTrip([1, 2, 3]);
    TokenIdsVector();
  }

  lemma TokensInfoDecodeVector()
    ensures DecodeTokensInfo(JObj([("role", JStr("user")), ("tokenIds", JArr([JStr("1"), JStr("2"), JStr("3")])),
                                   ("tokens", JArr([JStr("YQ=="), JStr("Yg=="), JStr("Yw==")]))])) ==
      Ok(TokensInfo("user", [1, 2, 3], [[97], [98], [99]]))
  {
    TokensVector();
    TokenIdsFieldVector();
    var ms := [("role", JStr("user")), ("tokenIds", JArr([JStr("1"), JStr("2"), JStr("3")])),
               ("tokens", JArr([JStr("YQ=="), JStr("Yg=="), JStr("Yw==")]))];
    FieldOfMember(ms, 0);
    FieldOfMember(ms, 1);
    FieldOfMember(ms, 2);
    DecodeTokensInfoOfFields(ms, TokensInfo("user", [1, 2, 3], [[97], [98], [99]]));
  }

  /** One bad token id fails the whole decode. */
  lemma TokensInfoRejectsBadTokenId()
    ensures DecodeTokensInfo(JObj([("tokenIds", JArr([JStr("1"), JStr("a"), JStr("3")]))])).Err?
  {
    ParseRejectsNonDigit("a", 0);
    var items := [JStr("1"), JStr("a"), JStr("3")];
    assert !(items[1].JStr? && ParseInt(items[1].s).Some?);
    FieldOfMember([("tokenIds", JArr(items))], 0);
  }
}
