/** Base64 with the standard alphabet and '=' padding (section 4 of
    RFC 4648), as Go's encoding/json writes and reads a []byte: it encodes
    with base64.StdEncoding and decodes with the same, non-strict, encoding,
    which ignores '\r' and '\n' and does not check the unused low bits of
    the last character. */
module Base64 {
  import opened Wrappers

  type byte = b: int | 0 <= b < 256

  /** A 6-bit value: what one base64 character stands for. */
  type sextet = v: int | 0 <= v < 64

  /** The character for a 6-bit value. */
  function SextetChar(v: sextet): char {
    if v < 26 then ('A' as int + v) as char
    else if v < 52 then ('a' as int + (v - 26)) as char
    else if v < 62 then ('0' as int + (v - 52)) as char
    else if v == 62 then '+'
    else '/'
  }

  /** The 6-bit value of an alphabet character; None for anything else,
      the padding character included. */
  function CharSextet(c: char): (r: Option<sextet>)
    ensures r.Some? ==> SextetChar(r.value) == c
  {
    if 'A' <= c <= 'Z' then Some(c as int - 'A' as int)
    else if 'a' <= c <= 'z' then Some(c as int - 'a' as int + 26)
    else if '0' <= c <= '9' then Some(c as int - '0' as int + 52)
    else if c == '+' then Some(62)
    else if c == '/' then Some(63)
    else None
  }

  /** Each alphabet character stands for exactly one value. */
  lemma SextetCharInverse(v: sextet)
    ensures CharSextet(SextetChar(v)) == Some(v)
  {
  }

  /** Three bytes as four characters. */
  function EncodeQuantum(b0: byte, b1: byte, b2: byte): (s: string)
    ensures |s| == 4
  {
    [ SextetChar(b0 / 4), SextetChar(b0 % 4 * 16 + b1 / 16),
      SextetChar(b1 % 16 * 4 + b2 / 64), SextetChar(b2 % 64) ]
  }

  /** base64.StdEncoding.EncodeToString: full quanta, then one or two bytes
      left over padded to four characters with '='. */
  function Encode(bs: seq<byte>): (s: string)
    ensures |s| == 4 * ((|bs| + 2) / 3)
    decreases |bs|
  {
    if |bs| == 0 then ""
    else if |bs| == 1 then
      [SextetChar(bs[0] / 4), SextetChar(bs[0] % 4 * 16), '=', '=']
    else if |bs| == 2 then
      [SextetChar(bs[0] / 4), SextetChar(bs[0] % 4 * 16 + bs[1] / 16), SextetChar(bs[1] % 16 * 4), '=']
    else
      EncodeQuantum(bs[0], bs[1], bs[2]) + Encode(bs[3..])
  }

  /** The text with every '\r' and '\n' removed. */
  function StripLineBreaks(s: string): (r: string)
    ensures |r| <= |s|
    ensures forall i :: 0 <= i < |r| ==> r[i] != '\r' && r[i] != '\n'
  {
    if |s| == 0 then ""
    else (if s[0] == '\r' || s[0] == '\n' then "" else [s[0]]) + StripLineBreaks(s[1..])
  }

  /** Four alphabet characters as three bytes. */
  function DecodeFullQuantum(c0: char, c1: char, c2: char, c3: char): Option<seq<byte>> {
    match (CharSextet(c0), CharSextet(c1), CharSextet(c2), CharSextet(c3))
    case (Some(v0), Some(v1), Some(v2), Some(v3)) =>
      Some([v0 as int * 4 + v1 / 16, v1 as int % 16 * 16 + v2 / 4, v2 as int % 4 * 64 + v3])
    case _ => None
  }

  /** The last quantum, which may end in "==" (one byte) or "=" (two
      bytes); the unused low bits of its last character are dropped. */
  function DecodeLastQuantum(c0: char, c1: char, c2: char, c3: char): Option<seq<byte>> {
    if c2 == '=' && c3 == '=' then
      match (CharSextet(c0), CharSextet(c1))
      case (Some(v0), Some(v1)) => Some([v0 as int * 4 + v1 / 16])
      case _ => None
    else if c3 == '=' then
      match (CharSextet(c0), CharSextet(c1), CharSextet(c2))
      case (Some(v0), Some(v1), Some(v2)) => Some([v0 as int * 4 + v1 / 16, v1 as int % 16 * 16 + v2 / 4])
      case _ => None
    else
      DecodeFullQuantum(c0, c1, c2, c3)
  }

  /** Quanta of four characters; only the last may carry padding, and a
      length that is not a multiple of four fails. */
  function DecodeQuanta(s: string): Option<seq<byte>>
    decreases |s|
  {
    if |s| == 0 then Some([])
    else if |s| < 4 then None
    else if |s| == 4 then DecodeLastQuantum(s[0], s[1], s[2], s[3])
    else
      match DecodeFullQuantum(s[0], s[1], s[2], s[3])
      case None => None
      case Some(q) =>
        match DecodeQuanta(s[4..])
        case None => None
        case Some(rest) => Some(q + rest)
  }

  /** Text that decodes is a whole number of quanta, each giving at most
      three bytes and the last at least one. */
  lemma {:induction false} DecodeQuantaLength(s: string)
    ensures DecodeQuanta(s).Some? ==>
      |s| % 4 == 0 && |DecodeQuanta(s).value| <= |s| / 4 * 3 && |DecodeQuanta(s).value| > |s| / 4 * 3 - 3
    decreases |s|
  {
    if |s| > 4 {
      DecodeQuantaLength(s[4..]);
    }
  }

  /** base64.StdEncoding.DecodeString as encoding/json applies it: with
      line breaks removed, the text must be whole quanta of four
      characters, and each quantum gives at most three bytes. */
  function Decode(s: string): (r: Option<seq<byte>>)
    ensures |StripLineBreaks(s)| % 4 != 0 ==> r.None?
    ensures r.Some? ==> |r.value| <= |StripLineBreaks(s)| / 4 * 3
  {
    DecodeQuantaLength(StripLineBreaks(s));
    DecodeQuanta(StripLineBreaks(s))
  }

  /** Encoded text holds alphabet characters and padding only. */
  lemma {:induction false} EncodeUsesAlphabet(bs: seq<byte>)
    ensures forall i :: 0 <= i < |Encode(bs)| ==> CharSextet(Encode(bs)[i]).Some? || Encode(bs)[i] == '='
    decreases |bs|
  {
    if |bs| >= 3 {
      EncodeUsesAlphabet(bs[3..]);
      var q := EncodeQuantum(bs[0], bs[1], bs[2]);
      SextetCharInverse(bs[0] / 4);
      SextetCharInverse(bs[0] % 4 * 16 + bs[1] / 16);
      SextetCharInverse(bs[1] % 16 * 4 + bs[2] / 64);
      SextetCharInverse(bs[2] % 64);
      assert Encode(bs) == q + Encode(bs[3..]);
    } else if |bs| == 2 {
      SextetCharInverse(bs[0] / 4);
      SextetCharInverse(bs[0] % 4 * 16 + bs[1] / 16);
      SextetCharInverse(bs[1] % 16 * 4);
    } else if |bs| == 1 {
      SextetCharInverse(bs[0] / 4);
      SextetCharInverse(bs[0] % 4 * 16);
    }
  }

  /** Encoded text carries no line breaks, so the decoder's stripping of
      '\r' and '\n' leaves it as it is. */
  lemma EncodeHasNoLineBreaks(bs: seq<byte>)
    ensures forall i :: 0 <= i < |Encode(bs)| ==> Encode(bs)[i] != '\r' && Encode(bs)[i] != '\n'
  {
    EncodeUsesAlphabet(bs);
    assert CharSextet('\r').None? && CharSextet('\n').None?;
  }

  lemma {:induction false} StripKeepsUnbroken(s: string)
    requires forall i :: 0 <= i < |s| ==> s[i] != '\r' && s[i] != '\n'
    ensures StripLineBreaks(s) == s
  {
    if |s| > 0 {
      StripKeepsUnbroken(s[1..]);
      assert s == [s[0]] + s[1..];
    }
  }

  /** Splitting three bytes into four sextets and joining them again gives
      the same bytes; with fewer bytes the same holds of the leading ones. */
  lemma QuantumArithmetic(b0: byte, b1: byte, b2: byte)
    ensures (b0 / 4) * 4 + (b0 % 4 * 16 + b1 / 16) / 16 == b0
    ensures (b0 % 4 * 16 + b1 / 16) % 16 * 16 + (b1 % 16 * 4 + b2 / 64) / 4 == b1
    ensures (b1 % 16 * 4 + b2 / 64) % 4 * 64 + b2 % 64 == b2
  {
  }

  /** Four alphabet characters decode to the bytes their sextets join to. */
  lemma DecodeSextets(v0: sextet, v1: sextet, v2: sextet, v3: sextet)
    ensures DecodeFullQuantum(SextetChar(v0), SextetChar(v1), SextetChar(v2), SextetChar(v3))
      == Some([v0 as int * 4 + v1 / 16, v1 as int % 16 * 16 + v2 / 4, v2 as int % 4 * 64 + v3])
  {
    SextetCharInverse(v0);
    SextetCharInverse(v1);
    SextetCharInverse(v2);
    SextetCharInverse(v3);
  }

  lemma DecodeFullQuantumOfEncode(b0: byte, b1: byte, b2: byte)
    ensures var q := EncodeQuantum(b0, b1, b2);
      DecodeFullQuantum(q[0], q[1], q[2], q[3]) == Some([b0, b1, b2])
  {
    var v0: sextet, v1: sextet, v2: sextet, v3: sextet := b0 / 4, b0 % 4 * 16 + b1 / 16, b1 % 16 * 4 + b2 / 64, b2 % 64;
    QuantumArithmetic(b0, b1, b2);
    DecodeSextets(v0, v1, v2, v3);
  }

  /** One trailing byte: "xx==". */
  lemma DecodeOneByte(b0: byte)
    ensures DecodeLastQuantum(SextetChar(b0 / 4), SextetChar(b0 % 4 * 16), '=', '=') == Some([b0])
  {
    QuantumArithmetic(b0, 0, 0);
    SextetCharInverse(b0 / 4);
    SextetCharInverse(b0 % 4 * 16);
  }

  /** Two trailing bytes: "xxx=". */
  lemma DecodeTwoBytes(b0: byte, b1: byte)
    ensures DecodeLastQuantum(SextetChar(b0 / 4), SextetChar(b0 % 4 * 16 + b1 / 16), SextetChar(b1 % 16 * 4), '=')
      == Some([b0, b1])
  {
    var c2 := SextetChar(b1 % 16 * 4);
    assert c2 != '=';
    QuantumArithmetic(b0, b1, 0);
    SextetCharInverse(b0 / 4);
    SextetCharInverse(b0 % 4 * 16 + b1 / 16);
    SextetCharInverse(b1 % 16 * 4);
  }

  lemma {:induction false} DecodeQuantaOfEncode(bs: seq<byte>)
    ensures DecodeQuanta(Encode(bs)) == Some(bs)
    decreases |bs|
  {
    var s := Encode(bs);
    if |bs| == 1 {
      assert s == [SextetChar(bs[0] / 4), SextetChar(bs[0] % 4 * 16), '=', '='];
      DecodeOneByte(bs[0]);
      assert DecodeQuanta(s) == DecodeLastQuantum(s[0], s[1], s[2], s[3]);
      assert [bs[0]] == bs;
    } else if |bs| == 2 {
      assert s == [SextetChar(bs[0] / 4), SextetChar(bs[0] % 4 * 16 + bs[1] / 16), SextetChar(bs[1] % 16 * 4), '='];
      DecodeTwoBytes(bs[0], bs[1]);
      assert DecodeQuanta(s) == DecodeLastQuantum(s[0], s[1], s[2], s[3]);
      assert [bs[0], bs[1]] == bs;
    } else if |bs| >= 3 {
      DecodeQuantaOfLongEncode(bs);
    }
  }

  lemma DecodeQuantaStep(s: string, q: seq<byte>, rest: seq<byte>)
    requires |s| > 4 && DecodeFullQuantum(s[0], s[1], s[2], s[3]) == Some(q)
    requires DecodeQuanta(s[4..]) == Some(rest)
    ensures DecodeQuanta(s) == Some(q + rest)
  {
  }

  lemma DecodeQuantaLast(s: string, q: seq<byte>)
    requires |s| == 4 && s[2] != '=' && s[3] != '='
    requires DecodeFullQuantum(s[0], s[1], s[2], s[3]) == Some(q)
    ensures DecodeQuanta(s) == Some(q)
  {
  }

  lemma {:induction false} DecodeQuantaOfLongEncode(bs: seq<byte>)
    requires |bs| >= 3
    ensures DecodeQuanta(Encode(bs)) == Some(bs)
    decreases |bs|, 0
  {
    var q := EncodeQuantum(bs[0], bs[1], bs[2]);
    var rest := Encode(bs[3..]);
    var s := q + rest;
    assert s == Encode(bs);
    DecodeFullQuantumOfEncode(bs[0], bs[1], bs[2]);
    assert s[0] == q[0] && s[1] == q[1] && s[2] == q[2] && s[3] == q[3];
    assert bs == [bs[0], bs[1], bs[2]] + bs[3..];
    if |rest| == 0 {
      SextetCharInverse(bs[1] % 16 * 4 + bs[2] / 64);
      SextetCharInverse(bs[2] % 64);
      assert CharSextet('=') == None;
      assert |s| == 4 && s[2] != '=' && s[3] != '=';
      DecodeQuantaLast(s, [bs[0], bs[1], bs[2]]);
      assert |bs| == 3 && bs == [bs[0], bs[1], bs[2]];
    } else {
      DecodeQuantaOfEncode(bs[3..]);
      assert s[4..] == rest;
      DecodeQuantaStep(s, [bs[0], bs[1], bs[2]], bs[3..]);
    }
  }

  /** The byte round trip: every byte sequence written is read back
      exactly, with no padding ambiguity. */
  lemma DecodeEncode(bs: seq<byte>)
    ensures Decode(Encode(bs)) == Some(bs)
  {
    EncodeHasNoLineBreaks(bs);
    StripKeepsUnbroken(Encode(bs));
    DecodeQuantaOfEncode(bs);
  }

  /** Test vectors: "a", "b" and "c" are "YQ==", "Yg==" and "Yw==", and
      read back as themselves. */
  lemma Base64SingleByteVectors()
    ensures Encode([97]) == "YQ==" && Decode("YQ==") == Some([97])
    ensures Encode([98]) == "Yg==" && Decode("Yg==") == Some([98])
    ensures Encode([99]) == "Yw==" && Decode("Yw==") == Some([99])
  {
    assert Encode([97]) == "YQ==";
    DecodeEncode([97]);
    assert Encode([98]) == "Yg==";
    DecodeEncode([98]);
    assert Encode([99]) == "Yw==";
    DecodeEncode([99]);
  }

  /** Test vector: "test" is "dGVzdA==", and reads back as itself. */
  lemma Base64TestVector()
    ensures Encode([116, 101, 115, 116]) == "dGVzdA==" && Decode("dGVzdA==") == Some([116, 101, 115, 116])
  {
    var bs: seq<byte> := [116, 101, 115, 116];
    assert bs[3..] == [116];
    assert Encode(bs) == EncodeQuantum(116, 101, 115) + Encode([116]);
    assert EncodeQuantum(116, 101, 115) == "dGVz";
    assert Encode([116]) == "dA==";
    DecodeEncode(bs);
  }

  /** A length that is not a multiple of four is rejected. */
  lemma Base64RejectsShortQuantum()
    ensures Decode("YQ=") == None
  {
  }

  /** Padding is allowed only in the last quantum: a quantum with '=' in
      it followed by more text fails the whole decode. */
  lemma PaddingOnlyAtEnd(s: string)
    requires |s| > 4 && (s[2] == '=' || s[3] == '=')
    ensures DecodeQuanta(s) == None
  {
    assert CharSextet('=') == None;
  }

  /** Test vector: two padded quanta in a row are rejected. */
  lemma Base64RejectsInnerPadding()
    ensures Decode("YQ==YQ==") == None
  {
    var s := "YQ==YQ==";
    StripKeepsUnbroken(s);
    PaddingOnlyAtEnd(s);
  }

  /** A character outside the alphabet is rejected. */
  lemma Base64RejectsForeignChar()
    ensures Decode("Y!==") == None
  {
  }

  /** The decoder is not strict: the unused low bits of the last character
      are dropped, so "YR==" also reads as "a". */
  lemma Base64IgnoresUnusedBits()
    ensures Decode("YR==") == Some([97])
  {
  }
}
