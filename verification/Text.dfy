/** Text helpers shared by the pipeline: ASCII lower case, decimal numerals and UTF-8. */
module Text {
  import KeccakSponge

  // ----- Lower case (ASCII letters; other characters are kept)

  function LowerChar(c: char): char {
    if 'A' <= c <= 'Z' then c - 'A' + 'a' else c
  }

  function Lower(s: string): (r: string)
    ensures |r| == |s| && forall i | 0 <= i < |s| :: r[i] == LowerChar(s[i])
  {
    seq(|s|, i requires 0 <= i < |s| => LowerChar(s[i]))
  }

  /** Exactly the code points 65 to 90 change, each by 32. */
  lemma LowerIs(s: string)
    ensures |Lower(s)| == |s|
    ensures forall i | 0 <= i < |s| :: Lower(s)[i] as int == s[i] as int + if 65 <= s[i] as int <= 90 then 32 else 0
  {
  }

  lemma LowerIdempotent(s: string)
    ensures Lower(Lower(s)) == Lower(s)
  {
  }

  // ----- Hexadecimal texts

  predicate HexDigit(c: char) {
    '0' <= c <= '9' || 'a' <= c <= 'f' || 'A' <= c <= 'F'
  }

  /** 0x and at least one hexadecimal digit, in either case. */
  predicate HexText(s: string) {
    |s| > 2 && s[0] == '0' && s[1] == 'x' && forall i | 2 <= i < |s| :: HexDigit(s[i])
  }

  /** Hexadecimal texts are 0x and one or more of these digits. */
  lemma HexTextIff(s: string)
    ensures HexText(s) <==> exists t: string :: t != "" && s == "0x" + t && forall i | 0 <= i < |t| :: t[i] in "0123456789abcdefABCDEF"
  {
    forall c: char ensures HexDigit(c) <==> c in "0123456789abcdefABCDEF" { HexDigitIs(c); }
    if HexText(s) {
      var t := s[2..];
      assert s == "0x" + t;
      forall i | 0 <= i < |t| ensures t[i] in "0123456789abcdefABCDEF" { assert t[i] == s[i + 2]; }
    }
    if t: string :| t != "" && s == "0x" + t && forall i | 0 <= i < |t| :: t[i] in "0123456789abcdefABCDEF" {
      forall i | 2 <= i < |s| ensures HexDigit(s[i]) { assert s[i] == t[i - 2]; }
    }
  }

  lemma HexDigitIs(c: char)
    ensures HexDigit(c) <==> c in "0123456789abcdefABCDEF"
  {
    var (l, n) := ("0123456789abcdefABCDEF", c as int);
    if '0' <= c <= '9' { assert l[n - '0' as int] == c; }
    if 'a' <= c <= 'f' { assert l[n - 'a' as int + 10] == c; }
    if 'A' <= c <= 'F' { assert l[n - 'A' as int + 16] == c; }
  }

  // ----- Decimal numerals

  predicate Digit(c: char) { '0' <= c <= '9' }

  predicate Digits(s: string) { forall i | 0 <= i < |s| :: Digit(s[i]) }

  /** A decimal numeral without a leading zero. */
  predicate CanonicalDecimal(s: string) {
    s != "" && Digits(s) && (s[0] == '0' ==> |s| == 1)
  }

  function DigitOf(n: nat): char
    requires n < 10
  {
    '0' + n as char
  }

  function ValueOfDigit(c: char): (n: nat)
    requires Digit(c)
    ensures n < 10
  {
    (c as int) - ('0' as int)
  }

  /** The number a text of digits denotes; the empty text denotes zero. */
  function ValueOf(s: string): nat
    requires Digits(s)
  {
    if s == "" then 0 else 10 * ValueOf(s[..|s| - 1]) + ValueOfDigit(s[|s| - 1])
  }

  /** The decimal numeral of n. */
  function Decimal(n: nat): (s: string)
    ensures s != "" && Digits(s)
  {
    if n < 10 then [DigitOf(n)] else Decimal(n / 10) + [DigitOf(n % 10)]
  }

  function IntText(n: int): string {
    if n < 0 then "-" + Decimal(-n) else Decimal(n)
  }

  /** Printing loses nothing: reading a printed number gives it back. */
  lemma {:induction false} DecimalRoundTrip(n: nat)
    ensures CanonicalDecimal(Decimal(n)) && ValueOf(Decimal(n)) == n
    ensures n > 0 ==> Decimal(n)[0] != '0'
  {
    if n >= 10 {
      DecimalRoundTrip(n / 10);
      assert Decimal(n)[..|Decimal(n)| - 1] == Decimal(n / 10);
    }
  }

  /** Reading loses nothing on canonical numerals: printing the value gives the numeral back. */
  lemma {:induction false} ValueRoundTrip(s: string)
    requires CanonicalDecimal(s)
    ensures Decimal(ValueOf(s)) == s
    ensures s[0] != '0' ==> ValueOf(s) > 0
  {
    var last := s[|s| - 1];
    if |s| == 1 {
      assert s == [last];
      assert s[..0] == "";
    } else {
      var head := s[..|s| - 1];
      ValueRoundTrip(head);
      assert s == head + [last];
      assert ValueOf(s) / 10 == ValueOf(head) && ValueOf(s) % 10 == ValueOfDigit(last);
    }
  }

  /** The canonical numerals are exactly the texts that print a number. */
  lemma CanonicalDecimalIff(s: string)
    ensures CanonicalDecimal(s) <==> exists n: nat :: s == Decimal(n)
  {
    if CanonicalDecimal(s) { ValueRoundTrip(s); }
    if n: nat :| s == Decimal(n) { DecimalRoundTrip(n); }
  }

  // ----- Numerals side by side

  function Ten(n: nat): (p: nat)
    ensures p > 0
  {
    if n == 0 then 1 else 10 * Ten(n - 1)
  }

  lemma {:induction false} ValueOfConcat(a: string, b: string)
    requires Digits(a) && Digits(b)
    ensures Digits(a + b) && ValueOf(a + b) == ValueOf(a) * Ten(|b|) + ValueOf(b)
  {
    if b == "" {
      assert a + b == a;
    } else {
      var (c, d) := (b[..|b| - 1], b[|b| - 1]);
      ValueOfConcat(a, c);
      assert a + b == a + c + [d];
      assert (a + b)[..|a + b| - 1] == a + c;
      TenStep(ValueOf(a), |c|, ValueOf(c), ValueOfDigit(d));
    }
  }

  lemma TenStep(a: nat, n: nat, c: nat, d: nat)
    ensures 10 * (a * Ten(n) + c) + d == a * Ten(n + 1) + (10 * c + d)
  {
    assert a * (10 * Ten(n)) == 10 * (a * Ten(n));
  }

  lemma {:induction false} TenSum(m: nat, n: nat)
    ensures Ten(m + n) == Ten(m) * Ten(n)
  {
    if m > 0 {
      TenSum(m - 1, n);
      assert 10 * Ten(m - 1) * Ten(n) == 10 * (Ten(m - 1) * Ten(n));
    }
  }

  // ----- UTF-8

  /** The UTF-8 bytes of one scalar value. */
  function Utf8Char(c: char): seq<KeccakSponge.Byte> {
    var n := c as int;
    if n < 0x80 then [n]
    else if n < 0x800 then [0xC0 + n / 0x40, 0x80 + n % 0x40]
    else if n < 0x10000 then [0xE0 + n / 0x1000, 0x80 + n / 0x40 % 0x40, 0x80 + n % 0x40]
    else [0xF0 + n / 0x40000, 0x80 + n / 0x1000 % 0x40, 0x80 + n / 0x40 % 0x40, 0x80 + n % 0x40]
  }

  function Utf8(s: string): seq<KeccakSponge.Byte> {
    if s == "" then [] else Utf8Char(s[0]) + Utf8(s[1..])
  }

  /** keccak256 of a text. */
  function Hash(s: string): (h: string)
    ensures |h| == 66
  {
    KeccakSponge.Digest(Utf8(s))
  }

  lemma {:induction false} HexLower(bytes: seq<KeccakSponge.Byte>)
    ensures var t := KeccakSponge.Hex(bytes); forall i | 0 <= i < |t| :: HexDigit(t[i]) && LowerChar(t[i]) == t[i]
  {
    if bytes != [] {
      HexLower(bytes[1..]);
      assert KeccakSponge.Hex(bytes)[2..] == KeccakSponge.Hex(bytes[1..]);
    }
  }

  /** A digest is a hexadecimal text in lower case. */
  lemma HashIsHex(s: string)
    ensures HexText(Hash(s)) && Lower(Hash(s)) == Hash(s)
  {
    hide KeccakSponge.DigestBytes, KeccakSponge.Hex, Utf8;
    var bytes := KeccakSponge.DigestBytes(Utf8(s));
    HexLower(bytes);
    assert Hash(s) == "0x" + KeccakSponge.Hex(bytes);
    assert forall i | 2 <= i < 66 :: Hash(s)[i] == KeccakSponge.Hex(bytes)[i - 2];
  }
}
