/** The proto3 JSON mapping of 64-bit integers: a base-10 string, written as
    Go's strconv.FormatInt(n, 10) writes it and read back as
    strconv.ParseInt(s, 10, 64) reads it. */
module DecimalInt {
  import opened Wrappers

  const MinInt64: int := -0x8000_0000_0000_0000
  const MaxInt64: int := 0x7FFF_FFFF_FFFF_FFFF
  const MinInt32: int := -0x8000_0000
  const MaxInt32: int := 0x7FFF_FFFF

  type int64 = n: int | MinInt64 <= n <= MaxInt64
  type int32 = n: int | MinInt32 <= n <= MaxInt32

  predicate IsDigit(c: char) {
    '0' <= c <= '9'
  }

  predicate AllDigits(s: string) {
    forall i :: 0 <= i < |s| ==> IsDigit(s[i])
  }

  function DigitChar(d: nat): (c: char)
    requires d < 10
    ensures IsDigit(c) && c as int - '0' as int == d
  {
    ('0' as int + d) as char
  }

  /** The value of a string of decimal digits, most significant first. */
  function DigitsValue(s: string): nat
    requires AllDigits(s)
  {
    if |s| == 0 then 0
    else DigitsValue(s[..|s| - 1]) * 10 + (s[|s| - 1] as int - '0' as int)
  }

  /** Base-10 digits of a natural number, with no leading zero. */
  function FormatNat(n: nat): (s: string)
    ensures |s| > 0 && AllDigits(s)
    ensures (s[0] == '0') == (n == 0)
    ensures n == 0 ==> s == "0"
  {
    if n < 10 then [DigitChar(n)] else FormatNat(n / 10) + [DigitChar(n % 10)]
  }

  /** The shape of what FormatInt writes: "0", or an optional '-' followed
      by digits that do not start with '0'. */
  predicate IsCanonical(s: string) {
    || s == "0"
    || (|s| > 0 && '1' <= s[0] <= '9' && AllDigits(s))
    || (|s| > 1 && s[0] == '-' && '1' <= s[1] <= '9' && AllDigits(s[1..]))
  }

  /** The digits after an optional leading sign. */
  function Unsigned(s: string): string {
    if |s| > 0 && (s[0] == '+' || s[0] == '-') then s[1..] else s
  }

  /** What strconv.ParseInt accepts in base 10 before its range check: an
      optional '+' or '-' and then at least one digit. */
  predicate IsLiteral(s: string) {
    |Unsigned(s)| > 0 && AllDigits(Unsigned(s))
  }

  /** strconv.FormatInt(n, 10). */
  function FormatInt(n: int64): (s: string)
    ensures IsCanonical(s)
  {
    if n < 0 then "-" + FormatNat(-(n as int)) else FormatNat(n)
  }

  /** The value a literal denotes: its digits' value, negated after '-'. */
  function LiteralValue(s: string): int
    requires IsLiteral(s)
  {
    if s[0] == '-' then -(DigitsValue(Unsigned(s)) as int) else DigitsValue(Unsigned(s))
  }

  /** strconv.ParseInt(s, 10, 64): None for anything that is not a decimal
      literal and for a literal outside the 64-bit range. */
  function ParseInt(s: string): (r: Option<int64>)
    ensures r.Some? <==> IsLiteral(s) && MinInt64 <= LiteralValue(s) <= MaxInt64
    ensures r.Some? ==> r.value == LiteralValue(s)
  {
    var digits := Unsigned(s);
    if |digits| == 0 || !AllDigits(digits) then None
    else
      var u: int := DigitsValue(digits);
      var v := if s[0] == '-' then -u else u;
      if MinInt64 <= v <= MaxInt64 then Some(v) else None
  }

  lemma {:induction false} DigitsValueOfFormatNat(n: nat)
    ensures DigitsValue(FormatNat(n)) == n
  {
    if n >= 10 {
      var s := FormatNat(n);
      var p := FormatNat(n / 10);
      assert s[..|s| - 1] == p;
      DigitsValueOfFormatNat(n / 10);
    }
  }

  /** Digits with no leading zero are a number's own FormatNat. */
  lemma {:induction false} FormatNatOfDigitsValue(s: string)
    requires |s| > 0 && AllDigits(s) && (s[0] != '0' || s == "0")
    ensures FormatNat(DigitsValue(s)) == s
  {
    if |s| > 1 {
      var p := s[..|s| - 1];
      assert p[0] == s[0];
      FormatNatOfDigitsValue(p);
      DigitsValuePositive(p);
      var d := s[|s| - 1] as int - '0' as int;
      assert DigitsValue(s) / 10 == DigitsValue(p) && DigitsValue(s) % 10 == d;
      assert s == p + [DigitChar(d)];
    }
  }

  lemma {:induction false} DigitsValuePositive(s: string)
    requires |s| > 0 && AllDigits(s) && s[0] != '0'
    ensures DigitsValue(s) >= 1
  {
    if |s| > 1 {
      var p := s[..|s| - 1];
      assert p[0] == s[0];
      DigitsValuePositive(p);
    }
  }

  /** The round trip of every test in the marshal table: a 64-bit integer
      written and read back is the same integer. */
  lemma ParseFormat(n: int64)
    ensures ParseInt(FormatInt(n)) == Some(n)
  {
    if n < 0 {
      DigitsValueOfFormatNat(-(n as int));
      assert Unsigned(FormatInt(n)) == FormatNat(-(n as int));
    } else {
      DigitsValueOfFormatNat(n);
    }
  }

  /** The other direction: a canonical literal that parses is what
      FormatInt writes for its value. */
  lemma FormatParse(s: string)
    requires IsCanonical(s) && ParseInt(s).Some?
    ensures FormatInt(ParseInt(s).value) == s
  {
    if s[0] == '-' {
      FormatNatOfDigitsValue(s[1..]);
      DigitsValuePositive(s[1..]);
      assert s == "-" + s[1..];
    } else {
      FormatNatOfDigitsValue(s);
    }
  }

  /** A non-numeric string is rejected, never read as zero: any character
      that is neither a digit nor a leading sign fails the parse. */
  lemma ParseRejectsNonDigit(s: string, i: nat)
    requires i < |s| && !IsDigit(s[i])
    requires !(i == 0 && (s[0] == '+' || s[0] == '-'))
    ensures ParseInt(s) == None
  {
    if |s| > 0 && (s[0] == '+' || s[0] == '-') {
      assert Unsigned(s)[i - 1] == s[i];
    }
  }

  /** The digits of 2^63, one past the largest 64-bit integer, evaluated
      a prefix at a time. */
  lemma DigitsOfTwoPow63Head()
    ensures DigitsValue("9223372") == 9223372
  {
    assert DigitsValue("92") == 92 by { assert "92"[..1] == "9"; }
    assert DigitsValue("922") == 922 by { assert "922"[..2] == "92"; }
    assert DigitsValue("9223") == 9223 by { assert "9223"[..3] == "922"; }
    assert DigitsValue("92233") == 92233 by { assert "92233"[..4] == "9223"; }
    assert DigitsValue("922337") == 922337 by { assert "922337"[..5] == "92233"; }
    assert DigitsValue("9223372") == 9223372 by { assert "9223372"[..6] == "922337"; }
  }

  lemma DigitsOfTwoPow63Middle()
    ensures DigitsValue("9223372036854") == 9223372036854
  {
    DigitsOfTwoPow63Head();
    assert DigitsValue("92233720") == 92233720 by { assert "92233720"[..7] == "9223372"; }
    assert DigitsValue("922337203") == 922337203 by { assert "922337203"[..8] == "92233720"; }
    assert DigitsValue("9223372036") == 9223372036 by { assert "9223372036"[..9] == "922337203"; }
    assert DigitsValue("92233720368") == 92233720368 by { assert "92233720368"[..10] == "9223372036"; }
    assert DigitsValue("922337203685") == 922337203685 by { assert "922337203685"[..11] == "92233720368"; }
    assert DigitsValue("9223372036854") == 9223372036854 by { assert "9223372036854"[..12] == "922337203685"; }
  }

  lemma DigitsOfTwoPow63()
    ensures DigitsValue("9223372036854775808") == 9223372036854775808
  {
    DigitsOfTwoPow63Middle();
    assert DigitsValue("92233720368547") == 92233720368547 by { assert "92233720368547"[..13] == "9223372036854"; }
    assert DigitsValue("922337203685477") == 922337203685477 by { assert "922337203685477"[..14] == "92233720368547"; }
    assert DigitsValue("9223372036854775") == 9223372036854775 by { assert "9223372036854775"[..15] == "922337203685477"; }
    assert DigitsValue("92233720368547758") == 92233720368547758 by { assert "92233720368547758"[..16] == "9223372036854775"; }
    assert DigitsValue("922337203685477580") == 922337203685477580 by { assert "922337203685477580"[..17] == "92233720368547758"; }
    assert DigitsValue("9223372036854775808") == 9223372036854775808 by { assert "9223372036854775808"[..18] == "922337203685477580"; }
  }

  /** Literals FormatInt never writes are still read: a leading '+',
      leading zeros and "-0"; one past the top of the 64-bit range fails,
      while its negation is the bottom of the range. */
  lemma ParseIntNonCanonical()
    ensures ParseInt("+10") == Some(10) && ParseInt("007") == Some(7) && ParseInt("-0") == Some(0)
    ensures ParseInt("9223372036854775808") == None
    ensures ParseInt("-9223372036854775808") == Some(MinInt64)
  {
    assert Unsigned("+10") == "10" && Unsigned("-0") == "0";
    assert DigitsValue("007") == 7 by { assert "007"[..2] == "00"; assert "00"[..1] == "0"; }
    DigitsOfTwoPow63();
    assert Unsigned("-9223372036854775808") == "9223372036854775808";
  }

  /** Test vectors: "10" reads as 10; "abc", "a" and "xyz" are rejected. */
  lemma ParseIntVectors()
    ensures ParseInt("10") == Some(10)
    ensures ParseInt("abc") == None && ParseInt("a") == None && ParseInt("xyz") == None
    ensures FormatInt(1024) == "1024" && FormatInt(-5) == "-5"
  {
    assert FormatInt(10) == "10";
    ParseFormat(10);
    ParseRejectsNonDigit("abc", 0);
    ParseRejectsNonDigit("a", 0);
    ParseRejectsNonDigit("xyz", 0);
  }
}
