/** Reading UTF-8 as section 4 of RFC 3629 lays it out, and that `Utf8` writes exactly what is read. */
module TextBytes {
  import opened Values
  import opened Text
  import JsonReader
  import KeccakSponge

  type Byte = KeccakSponge.Byte

  // ----- The syntax of UTF-8 byte sequences

  predicate Tail(b: Byte) { 0x80 <= b <= 0xBF }

  predicate One(l: seq<Byte>) {
    |l| >= 1 && l[0] <= 0x7F
  }

  predicate Two(l: seq<Byte>) {
    |l| >= 2 && 0xC2 <= l[0] <= 0xDF && Tail(l[1])
  }

  predicate Three(l: seq<Byte>) {
    |l| >= 3 && Tail(l[2]) &&
    ((l[0] == 0xE0 && 0xA0 <= l[1] <= 0xBF) || (0xE1 <= l[0] <= 0xEC && Tail(l[1])) ||
     (l[0] == 0xED && 0x80 <= l[1] <= 0x9F) || (0xEE <= l[0] <= 0xEF && Tail(l[1])))
  }

  predicate Four(l: seq<Byte>) {
    |l| >= 4 && Tail(l[2]) && Tail(l[3]) &&
    ((l[0] == 0xF0 && 0x90 <= l[1] <= 0xBF) || (0xF1 <= l[0] <= 0xF3 && Tail(l[1])) || (l[0] == 0xF4 && 0x80 <= l[1] <= 0x8F))
  }

  /** The bits of one sequence, six from each byte after the first. */
  function Scalar(first: int, tail: seq<Byte>): int {
    if tail == [] then first else 64 * Scalar(first, tail[..|tail| - 1]) + tail[|tail| - 1] - 0x80
  }

  lemma Scalars(first: int, a: Byte, b: Byte, c: Byte)
    ensures Scalar(first, []) == first && Scalar(first, [a]) == 64 * first + a - 0x80
    ensures Scalar(first, [a, b]) == 64 * (64 * first + a - 0x80) + b - 0x80
    ensures Scalar(first, [a, b, c]) == 64 * (64 * (64 * first + a - 0x80) + b - 0x80) + c - 0x80
  {
    assert [a][..0] == [] && [a, b][..1] == [a] && [a, b, c][..2] == [a, b];
  }

  predicate IsScalar(n: int) {
    0 <= n < 0xD800 || 0xE000 <= n < 0x110000
  }

  /** The number of bytes of the first sequence; zero when there is none. */
  function SizeOf(l: seq<Byte>): (n: nat)
    ensures n <= |l| && n <= 4
  {
    if One(l) then 1 else if Two(l) then 2 else if Three(l) then 3 else if Four(l) then 4 else 0
  }

  /** The scalar value of the first sequence. */
  function FirstScalar(l: seq<Byte>): (n: int)
    requires SizeOf(l) > 0
  {
    if One(l) then l[0] else if Two(l) then Scalar(l[0] - 0xC0, l[1..2])
    else if Three(l) then Scalar(l[0] - 0xE0, l[1..3]) else Scalar(l[0] - 0xF0, l[1..4])
  }

  /** Only scalar values are written, in their shortest form. */
  lemma FirstIsScalar(l: seq<Byte>)
    requires SizeOf(l) > 0
    ensures IsScalar(FirstScalar(l))
    ensures SizeOf(l) == if FirstScalar(l) < 0x80 then 1 else if FirstScalar(l) < 0x800 then 2 else if FirstScalar(l) < 0x10000 then 3 else 4
  {
    if Two(l) {
      assert l[1..2] == [l[1]];
      Scalars(l[0] - 0xC0, l[1], 0, 0);
    } else if Three(l) {
      assert l[1..3] == [l[1], l[2]];
      Scalars(l[0] - 0xE0, l[1], l[2], 0);
    } else if Four(l) {
      assert l[1..4] == [l[1], l[2], l[3]];
      Scalars(l[0] - 0xF0, l[1], l[2], l[3]);
    }
  }

  /** The text the bytes spell, when they are UTF-8. */
  function Decode(l: seq<Byte>): Option<string>
    decreases |l|
  {
    if l == [] then Some("")
    else if SizeOf(l) == 0 then None
    else
      FirstIsScalar(l);
      var rest := Decode(l[SizeOf(l)..]);
      if rest.None? then None else Some([FirstScalar(l) as char] + rest.value)
  }

  // ----- Writing and reading agree

  /** A number in groups of six bits. */
  lemma Groups(n: nat)
    ensures n / 0x1000 == n / 0x40 / 0x40 && n / 0x40000 == n / 0x1000 / 0x40
    ensures n == 64 * (n / 0x40) + n % 0x40 && n / 0x40 == 64 * (n / 0x1000) + n / 0x40 % 0x40
    ensures n / 0x1000 == 64 * (n / 0x40000) + n / 0x1000 % 0x40
  {
  }

  lemma TwoRead(c: char, l: seq<Byte>)
    requires 0x80 <= c as int < 0x800 && |l| >= 2 && l[..2] == Utf8Char(c)
    ensures SizeOf(l) == 2 && FirstScalar(l) == c as int
  {
    Groups(c as int);
    assert l[0] == l[..2][0] && l[1] == l[..2][1] && l[1..2] == [l[1]];
    Scalars(l[0] - 0xC0, l[1], 0, 0);
  }

  lemma ThreeRead(c: char, l: seq<Byte>)
    requires 0x800 <= c as int < 0x10000 && |l| >= 3 && l[..3] == Utf8Char(c)
    ensures SizeOf(l) == 3 && FirstScalar(l) == c as int
  {
    Groups(c as int);
    assert l[0] == l[..3][0] && l[1] == l[..3][1] && l[2] == l[..3][2] && l[1..3] == [l[1], l[2]];
    Scalars(l[0] - 0xE0, l[1], l[2], 0);
  }

  lemma FourRead(c: char, l: seq<Byte>)
    requires 0x10000 <= c as int && |l| >= 4 && l[..4] == Utf8Char(c)
    ensures SizeOf(l) == 4 && FirstScalar(l) == c as int
  {
    Groups(c as int);
    assert l[0] == l[..4][0] && l[1] == l[..4][1] && l[2] == l[..4][2] && l[3] == l[..4][3] && l[1..4] == [l[1], l[2], l[3]];
    Scalars(l[0] - 0xF0, l[1], l[2], l[3]);
  }

  /** The first sequence is read as the character, and nothing after it matters. */
  lemma CharRead(c: char, rest: seq<Byte>)
    ensures var l := Utf8Char(c) + rest;
            SizeOf(l) == |Utf8Char(c)| > 0 && FirstScalar(l) == c as int && l[SizeOf(l)..] == rest
  {
    var (n, l, k) := (c as int, Utf8Char(c) + rest, |Utf8Char(c)|);
    assert k == if n < 0x80 then 1 else if n < 0x800 then 2 else if n < 0x10000 then 3 else 4;
    assert n < 0x80 ==> l[0] == n;
    hide Utf8Char, Scalar;
    assert l[..k] == Utf8Char(c) && l[k..] == rest;
    if n < 0x80 {
    } else {
      hide SizeOf, FirstScalar;
      if n < 0x800 { TwoRead(c, l); } else if n < 0x10000 { ThreeRead(c, l); } else { FourRead(c, l); }
    }
  }

  /** The groups of six bits that make a number. */
  lemma Grouped(a: nat, x: nat, y: nat, z: nat)
    requires x < 64 && y < 64 && z < 64
    ensures var n := 64 * (64 * (64 * a + x) + y) + z;
            n % 0x40 == z && n / 0x40 % 0x40 == y && n / 0x1000 % 0x40 == x && n / 0x40000 == a
  {
    var n := 64 * (64 * (64 * a + x) + y) + z;
    assert n / 0x40 == 64 * (64 * a + x) + y;
    assert n / 0x1000 == 64 * a + x;
  }

  lemma TwoWritten(l: seq<Byte>)
    requires !One(l) && Two(l)
    ensures var n := FirstScalar(l); IsScalar(n) && [0xC0 + n / 0x40, 0x80 + n % 0x40] == l[..2] && 0x80 <= n < 0x800
  {
    assert l[1..2] == [l[1]];
    Scalars(l[0] - 0xC0, l[1], 0, 0);
    Groups(FirstScalar(l));
  }

  lemma ThreeWritten(l: seq<Byte>)
    requires !One(l) && !Two(l) && Three(l)
    ensures var n := FirstScalar(l);
            IsScalar(n) && [0xE0 + n / 0x1000, 0x80 + n / 0x40 % 0x40, 0x80 + n % 0x40] == l[..3] && 0x800 <= n < 0x10000
  {
    assert l[1..3] == [l[1], l[2]];
    Scalars(l[0] - 0xE0, l[1], l[2], 0);
    Grouped(0, l[0] - 0xE0, l[1] - 0x80, l[2] - 0x80);
    FirstIsScalar(l);
  }

  lemma FourWritten(l: seq<Byte>)
    requires !One(l) && !Two(l) && !Three(l) && Four(l)
    ensures var n := FirstScalar(l);
            IsScalar(n) && 0x10000 <= n &&
            [0xF0 + n / 0x40000, 0x80 + n / 0x1000 % 0x40, 0x80 + n / 0x40 % 0x40, 0x80 + n % 0x40] == l[..4]
  {
    assert l[1..4] == [l[1], l[2], l[3]];
    Scalars(l[0] - 0xF0, l[1], l[2], l[3]);
    Grouped(l[0] - 0xF0, l[1] - 0x80, l[2] - 0x80, l[3] - 0x80);
    FirstIsScalar(l);
  }

  /** What is read as one character is what is written for it. */
  lemma CharWritten(l: seq<Byte>)
    requires SizeOf(l) > 0 && IsScalar(FirstScalar(l))
    ensures Utf8Char(FirstScalar(l) as char) == l[..SizeOf(l)]
  {
    hide Scalar;
    if One(l) {
    } else {
      hide One, Two, Three, Four, FirstScalar;
      if Two(l) { TwoWritten(l); } else if Three(l) { ThreeWritten(l); } else { FourWritten(l); }
    }
  }

  lemma {:induction false} ReadsWritten(s: string)
    ensures Decode(Utf8(s)) == Some(s)
  {
    hide Utf8Char, SizeOf, FirstScalar;
    if s != "" {
      ReadsWritten(s[1..]);
      CharRead(s[0], Utf8(s[1..]));
      assert s == [s[0]] + s[1..];
    }
  }

  lemma {:induction false} WritesRead(l: seq<Byte>)
    requires Decode(l).Some?
    ensures Utf8(Decode(l).value) == l
    decreases |l|
  {
    hide Utf8Char, SizeOf, FirstScalar;
    if l != [] {
      FirstIsScalar(l);
      var n := SizeOf(l);
      WritesRead(l[n..]);
      CharWritten(l);
      var s := Decode(l).value;
      assert s[1..] == Decode(l[n..]).value;
      assert l == l[..n] + l[n..];
    }
  }

  /** `Utf8` writes for each text the one byte sequence that reads back as it. */
  lemma Utf8Iff(s: string, l: seq<Byte>)
    ensures Decode(l) == Some(s) <==> l == Utf8(s)
  {
    ReadsWritten(s);
    if Decode(l).Some? { WritesRead(l); }
  }

  lemma {:induction false} Utf8Concat(s: string, t: string)
    ensures Utf8(s + t) == Utf8(s) + Utf8(t)
  {
    hide Utf8Char;
    if s == "" {
      assert s + t == t;
    } else {
      Utf8Concat(s[1..], t);
      assert (s + t)[1..] == s[1..] + t;
    }
  }

  /** An ASCII text is its own bytes, in order. */
  lemma {:induction false} AsciiBytes(s: string)
    requires forall i | 0 <= i < |s| :: s[i] as int < 0x80
    ensures |Utf8(s)| == |s| && forall i | 0 <= i < |s| :: Utf8(s)[i] == s[i] as int
  {
    if s != "" { AsciiBytes(s[1..]); }
  }

  /** The hash of a text is the digest of the bytes that spell it in UTF-8. */
  lemma HashOfBytes(l: seq<Byte>)
    requires Decode(l).Some?
    ensures Hash(Decode(l).value) == KeccakSponge.Digest(l)
  {
    WritesRead(l);
  }

  /** A digest spells its bytes in order, the high half first. */
  lemma {:induction false} HexSpells(l: seq<Byte>, i: nat)
    requires i < |l|
    ensures var t := KeccakSponge.Hex(l);
            |t| == 2 * |l| && JsonReader.HexValue(t[2 * i]) == Some(l[i] / 16) && JsonReader.HexValue(t[2 * i + 1]) == Some(l[i] % 16)
  {
    hide JsonReader.HexValue;
    JsonReader.HexRead(l[0] / 16);
    JsonReader.HexRead(l[0] % 16);
    if i > 0 {
      HexSpells(l[1..], i - 1);
      assert KeccakSponge.Hex(l)[2..] == KeccakSponge.Hex(l[1..]);
    }
  }
}
