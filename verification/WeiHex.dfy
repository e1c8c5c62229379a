/** toWeiHex: fixed-point decimal text to hexadecimal wei. */
module WeiHex {
  import opened Values
  import opened Text
  import opened Coercions

  // ----- Hexadecimal

  predicate IsHexChar(c: char) {
    '0' <= c <= '9' || 'a' <= c <= 'f'
  }

  function HexCharValue(c: char): nat
    requires IsHexChar(c)
  {
    if c <= '9' then (c as int) - ('0' as int) else (c as int) - ('a' as int) + 10
  }

  predicate LowerHex(s: string) {
    forall i | 0 <= i < |s| :: IsHexChar(s[i])
  }

  /** The lower-case hexadecimal numeral of n. */
  function ToHex(n: nat): (s: string)
    ensures s != "" && LowerHex(s)
  {
    if n < 16 then [HexChar(n)] else ToHex(n / 16) + [HexChar(n % 16)]
  }

  function FromHex(s: string): nat
    requires LowerHex(s)
  {
    if s == "" then 0 else 16 * FromHex(s[..|s| - 1]) + HexCharValue(s[|s| - 1])
  }

  /** Reading the hexadecimal text back gives the number, and a number above zero has no leading zero. */
  lemma {:induction false} HexRoundTrip(n: nat)
    ensures FromHex(ToHex(n)) == n && (n > 0 ==> ToHex(n)[0] != '0')
  {
    if n >= 16 {
      HexRoundTrip(n / 16);
      assert ToHex(n)[..|ToHex(n)| - 1] == ToHex(n / 16);
    }
  }

  // ----- The conversion

  /** Printable ASCII without a sign, a space, or a letter of a base prefix; BigInt then reads digits only. */
  predicate Plain(s: string) {
    forall i | 0 <= i < |s| :: PlainChar(s[i])
  }

  predicate PlainChar(c: char) {
    '!' <= c <= '~' && c !in "+-xXoObB"
  }

  lemma NumeralChar(c: char)
    requires Digit(c) || c == '.'
    ensures PlainChar(c)
  {
  }

  /** The integer BigInt reads from such a text; None when it throws. */
  function BigIntOf(s: string): Option<nat> {
    if Digits(s) then Some(ValueOf(s)) else None
  }

  /** The text before the first point, or all of it. */
  function BeforePoint(s: string): (r: string)
    ensures |r| <= |s| && r == s[..|r|] && '.' !in r && (|r| < |s| ==> s[|r|] == '.')
  {
    if s == "" || s[0] == '.' then "" else [s[0]] + BeforePoint(s[1..])
  }

  function Zeros(n: nat): (s: string)
    ensures |s| == n && forall i | 0 <= i < n :: s[i] == '0'
  {
    seq(n, _ => '0')
  }

  /** The first eighteen characters of the fraction filled up with zeros. */
  function Padded(frac: string): (r: string)
    ensures |r| == 18 && (Digits(frac) ==> Digits(r))
  {
    (frac + Zeros(18))[..18]
  }

  function Wei(s: string): Option<nat>
    requires Plain(s)
  {
    var whole := BeforePoint(s);
    if whole == s then
      match BigIntOf(s)
      case None => None
      case Some(n) => Some(if n < 1_000_000_000 then n * Ten(18) else n)
    else
      var (w, f) := (BigIntOf(whole), BigIntOf(Padded(BeforePoint(s[|whole| + 1..]))));
      if w.None? || f.None? then None else Some(w.value * Ten(18) + f.value)
  }

  /** toWeiHex on null, or on a value with a plain text. */
  function ToWeiHex(v: Option<Value>): Option<string>
    requires v.Some? ==> v.value.Null? || Plain(TextOf(v.value))
  {
    if v.None? || v.value.Null? then None
    else match Wei(TextOf(v.value))
      case None => None
      case Some(n) => Some("0x" + ToHex(n))
  }

  // ----- What it computes

  lemma {:induction false} ValueBound(s: string)
    requires Digits(s)
    ensures ValueOf(s) < Ten(|s|)
  {
    if s != "" { ValueBound(s[..|s| - 1]); }
  }

  lemma {:induction false} ZerosValue(n: nat)
    ensures Digits(Zeros(n)) && ValueOf(Zeros(n)) == 0
  {
    if n > 0 {
      ZerosValue(n - 1);
      assert Zeros(n)[..n - 1] == Zeros(n - 1);
    }
  }

  lemma Distribute(x: int, y: int, z: int)
    ensures (x + y) * z == x * z + y * z
  {
  }

  lemma Regroup(x: int, y: int, z: int)
    ensures x * y * z == x * z * y == x * (y * z)
  {
  }

  lemma StepBelow(a: nat, b: nat, d: nat)
    requires a < b
    ensures a * d + d <= b * d
  {
    Distribute(a + 1, b - a - 1, d);
    Distribute(a, 1, d);
    Product(b - a - 1, d);
  }

  lemma Product(x: nat, y: nat)
    ensures x * y >= 0
  {
  }

  lemma FloorIs(q: nat, r: nat, d: nat)
    requires r < d
    ensures (q * d + r) / d == q
  {
    var x := q * d + r;
    var k := x / d;
    assert x == k * d + x % d;
    if k < q { StepBelow(k, q, d); }
    if k > q { StepBelow(q, k, d); }
  }

  /** With a point the result is the floor of value x 10^18, whatever the number of fraction digits. */
  lemma PointedIsFloor(whole: string, frac: string)
    requires Digits(whole) && Digits(frac)
    ensures Plain(whole + "." + frac) && Digits(whole + frac)
    ensures Wei(whole + "." + frac) == Some(ValueOf(whole + frac) * Ten(18) / Ten(|frac|))
  {
    hide Wei, Ten, ValueOf, Padded;
    SplitAt(whole, frac);
    ValueOfConcat(whole, frac);
    if |frac| <= 18 { ShortCase(ValueOf(whole), frac); } else { LongCase(ValueOf(whole), frac); }
  }

  lemma ShortCase(w: nat, frac: string)
    requires Digits(frac) && |frac| <= 18
    ensures w * Ten(18) + ValueOf(Padded(frac)) == (w * Ten(|frac|) + ValueOf(frac)) * Ten(18) / Ten(|frac|)
  {
    hide Ten, ValueOf, Padded;
    var k := 18 - |frac|;
    ShortFraction(frac);
    TenSum(|frac|, k);
    ShortFloor(w, ValueOf(frac), Ten(|frac|), Ten(k));
  }

  lemma LongCase(w: nat, frac: string)
    requires Digits(frac) && |frac| > 18
    ensures w * Ten(18) + ValueOf(Padded(frac)) == (w * Ten(|frac|) + ValueOf(frac)) * Ten(18) / Ten(|frac|)
  {
    hide Ten, ValueOf;
    var k := |frac| - 18;
    var (hi, lo) := (frac[..18], frac[18..]);
    assert frac == hi + lo;
    assert Padded(frac) == hi;
    ValueOfConcat(hi, lo);
    ValueBound(lo);
    TenSum(18, k);
    LongFloor(w, ValueOf(hi), ValueOf(lo), Ten(18), Ten(k));
  }

  lemma SplitAt(whole: string, frac: string)
    requires Digits(whole) && Digits(frac)
    ensures var s := whole + "." + frac;
            Plain(s) && Digits(Padded(frac)) && Wei(s) == Some(ValueOf(whole) * Ten(18) + ValueOf(Padded(frac)))
  {
    hide Ten, ValueOf, PlainChar;
    var s := whole + "." + frac;
    forall i | 0 <= i < |s| ensures PlainChar(s[i]) { NumeralChar(s[i]); }
    NoPoint(whole, "." + frac);
    assert s == whole + ("." + frac);
    NoPoint(frac, "");
    assert frac + "" == frac;
    assert s[|whole| + 1..] == frac;
    assert |s| > |whole|;
  }

  lemma {:induction false} NoPoint(a: string, b: string)
    requires Digits(a) && (b == "" || b[0] == '.')
    ensures BeforePoint(a + b) == a
  {
    if a == "" {
      assert a + b == b;
    } else {
      NoPoint(a[1..], b);
      assert (a + b)[1..] == a[1..] + b;
      assert Digit(a[0]);
    }
  }

  lemma ShortFraction(frac: string)
    requires Digits(frac) && |frac| <= 18
    ensures ValueOf(Padded(frac)) == ValueOf(frac) * Ten(18 - |frac|)
  {
    hide Ten, ValueOf;
    var k := 18 - |frac|;
    assert Padded(frac) == frac + Zeros(k);
    ZerosValue(k);
    ValueOfConcat(frac, Zeros(k));
  }

  lemma ShortFloor(w: nat, f: nat, d: nat, k: nat)
    requires d > 0
    ensures (w * d + f) * (d * k) / d == w * (d * k) + f * k
  {
    var x := w * d + f;
    Regroup(x, d, k);
    Product(x, k);
    FloorIs(x * k, 0, d);
    Distribute(w * d, f, k);
    Regroup(w, d, k);
  }

  lemma LongFloor(w: nat, hi: nat, lo: nat, e: nat, k: nat)
    requires e > 0 && lo < k
    ensures e * k > 0 && (w * (e * k) + (hi * k + lo)) * e / (e * k) == w * e + hi
  {
    var d := e * k;
    StepBelow(lo, k, e);
    Product(lo, e);
    Product(w, e);
    Distribute(w * d, hi * k + lo, e);
    Distribute(hi * k, lo, e);
    Regroup(w, d, e);
    Regroup(hi, k, e);
    Distribute(w * e, hi, d);
    FloorIs(w * e + hi, lo * e, d);
  }

  /** Without a point, a number below 10^9 counts as whole coins and any other as wei. */
  lemma DigitsOnly(s: string)
    requires Digits(s)
    ensures Plain(s) && Wei(s) == Some(if ValueOf(s) < 1_000_000_000 then ValueOf(s) * Ten(18) else ValueOf(s))
  {
    hide Ten, ValueOf, PlainChar;
    forall i | 0 <= i < |s| ensures PlainChar(s[i]) { NumeralChar(s[i]); }
    NoPoint(s, "");
    assert s + "" == s;
  }

  /** A plain text without a result is one where the part before the point, or the first eighteen characters
      after it, is not made of digits. */
  lemma NoResultIff(s: string)
    requires Plain(s)
    ensures var whole := BeforePoint(s);
            Wei(s).None? <==>
              !Digits(whole) ||
              (|whole| < |s| && var frac := BeforePoint(s[|whole| + 1..]); !Digits(if |frac| <= 18 then frac else frac[..18]))
  {
    hide Ten, ValueOf;
    var whole := BeforePoint(s);
    assert |whole| == |s| ==> whole == s;
    if |whole| < |s| {
      var frac := BeforePoint(s[|whole| + 1..]);
      PaddedDigits(frac);
    }
  }

  lemma PaddedDigits(frac: string)
    ensures Digits(Padded(frac)) <==> Digits(if |frac| <= 18 then frac else frac[..18])
  {
    var (p, q) := (Padded(frac), if |frac| <= 18 then frac else frac[..18]);
    assert forall i | 0 <= i < |q| :: p[i] == q[i];
    assert forall i | |q| <= i < 18 :: p[i] == '0';
  }

  /** The text produced is 0x and hexadecimal digits that read back as the same amount of wei. */
  lemma WeiHexReadsBack(v: Value)
    requires !v.Null? && Plain(TextOf(v)) && Wei(TextOf(v)).Some?
    ensures var t := ToWeiHex(Some(v));
            t.Some? && |t.value| > 2 && t.value[..2] == "0x" && LowerHex(t.value[2..]) && FromHex(t.value[2..]) == Wei(TextOf(v)).value
  {
    hide Wei;
    var n := Wei(TextOf(v)).value;
    HexRoundTrip(n);
    assert ("0x" + ToHex(n))[2..] == ToHex(n);
  }
}
