/** The byte-wise absorb, pad and squeeze loop of `keccak256`, proved against the sponge of
    `Fips202` for every byte string. */
module KeccakSponge {
  import opened BigInts
  import opened KeccakWords
  import opened Values
  import F = Fips202
  import Keccak

  type Byte = n: int | 0 <= n < 256

  // ----- Bytes as bits, least significant first (appendix B.1 of FIPS 202)

  function ByteBits(v: int): (s: seq<bool>)
    ensures |s| == 8
  {
    seq(8, i requires 0 <= i < 8 => Bit(v, i))
  }

  function BytesToBits(data: seq<Byte>): (s: seq<bool>)
    ensures |s| == 8 * |data|
  {
    seq(8 * |data|, p requires 0 <= p < 8 * |data| => Bit(data[p / 8], p % 8))
  }

  function ByteOf(bits: seq<bool>): Byte
    requires |bits| == 8
  {
    FromBitsRange(bits);
    assert Pow2(8) == 256;
    FromBits(bits)
  }

  function BytesOf(bits: seq<bool>, n: nat): (s: seq<Byte>)
    requires |bits| >= 8 * n
    ensures |s| == n
  {
    seq(n, i requires 0 <= i < n => ByteOf(bits[8 * i..8 * i + 8]))
  }

  /** The 32 bytes of the digest of section 4, as bits of the padded message's sponge. */
  function DigestBytes(data: seq<Byte>): (s: seq<Byte>)
    ensures |s| == 32
  {
    BytesOf(F.Keccak256Bits(BytesToBits(data)), 32)
  }

  /** Two lower-case hexadecimal digits for each byte. */
  function Hex(bytes: seq<Byte>): (s: string)
    ensures |s| == 2 * |bytes|
  {
    if bytes == [] then "" else [HexChar(bytes[0] / 16), HexChar(bytes[0] % 16)] + Hex(bytes[1..])
  }

  /** The text `keccak256` returns. */
  function Digest(data: seq<Byte>): (s: string)
    ensures |s| == 66
  {
    "0x" + Hex(DigestBytes(data))
  }

  // ----- One byte exclusive-ored into the cells

  function XorByte(s: seq<int>, i: nat, v: int): (t: seq<int>)
    requires |s| == 25 && i < 200
    ensures |t| == 25
  {
    s[i / 8 := Xor(s[i / 8], Shl(v, 8 * (i % 8)))]
  }

  lemma ShiftedByte(v: Byte, j: nat, z: nat)
    requires j < 8
    ensures Word(Shl(v, 8 * j))
    ensures Bit(Shl(v, 8 * j), z) == (8 * j <= z < 8 * j + 8 && Bit(v, z - 8 * j))
  {
    hide Bit, Shl;
    assert Pow2(8) == 256 by { Powers(); }
    Mask64();
    ShlRange(v, 8 * j, 8);
    Pow2Monotone(8 + 8 * j, 64);
    ShlBit(v, 8 * j, z);
    if z >= 8 * j + 8 { HighBitsClear(v, 8, z - 8 * j); }
  }

  lemma {:induction false} Pow2Monotone(j: nat, k: nat)
    requires j <= k
    ensures Pow2(j) <= Pow2(k)
  {
    if j < k { Pow2Monotone(j, k - 1); }
  }

  /** The bits of byte `i` of the state string, and only those, are flipped by the bits of `v`. */
  lemma XorByteBit(s: seq<int>, i: nat, v: Byte, x: nat, y: nat, z: nat)
    requires Words(s) && i < 200 && x < 5 && y < 5 && z < 64
    ensures Word(XorByte(s, i, v)[x + 5 * y])
    ensures var p := 64 * (x + 5 * y) + z;
            F.At(StateOf(XorByte(s, i, v)), x, y, z) ==
            F.Xor(F.At(StateOf(s), x, y, z), 8 * i <= p < 8 * i + 8 && Bit(v, p - 8 * i))
  {
    hide Bit, Shl, Xor, F.At, Word;
    AtStateOf(XorByte(s, i, v), x, y, z);
    AtStateOf(s, x, y, z);
    ByteCell(s, i, x + 5 * y);
    ShiftedByte(v, i % 8, z);
    XorWord(s[i / 8], Shl(v, 8 * (i % 8)), z);
  }

  lemma ByteCell(s: seq<int>, i: nat, k: nat)
    requires Words(s) && i < 200 && k < 25
    ensures Word(s[k]) && Word(s[i / 8])
    ensures 8 * i == 64 * (i / 8) + 8 * (i % 8)
  {
  }

  lemma XorByteWords(s: seq<int>, i: nat, v: Byte)
    requires Words(s) && i < 200
    ensures Words(XorByte(s, i, v))
  {
    hide F.At, Bit, XorByte, Word;
    forall k | 0 <= k < 25 ensures Word(XorByte(s, i, v)[k]) { XorByteBit(s, i, v, k % 5, k / 5, 0); }
  }

  /** Absorbing the next byte of a block extends the block by its bits. */
  lemma AbsorbByte(a: F.State, block: seq<bool>, s: seq<int>, i: nat, v: Byte)
    requires Words(s) && i < 200 && |block| == 8 * i && StateOf(s) == F.XorBlock(a, block)
    ensures Words(XorByte(s, i, v)) && StateOf(XorByte(s, i, v)) == F.XorBlock(a, block + ByteBits(v))
  {
    hide F.At, Bit, XorByte, StateOf, F.XorBlock;
    var t, more := XorByte(s, i, v), block + ByteBits(v);
    XorByteWords(s, i, v);
    forall x, y, z | 0 <= x < 5 && 0 <= y < 5 && 0 <= z < 64
      ensures F.At(StateOf(t), x, y, z) == F.At(F.XorBlock(a, more), x, y, z)
    {
      XorByteBit(s, i, v, x, y, z);
      XorBlockAt(a, block, x, y, z);
      XorBlockAt(a, more, x, y, z);
    }
    F.StateExtensionality(StateOf(t), F.XorBlock(a, more));
  }

  lemma XorBlockAt(a: F.State, block: seq<bool>, x: nat, y: nat, z: nat)
    requires x < 5 && y < 5 && z < 64
    ensures F.At(F.XorBlock(a, block), x, y, z) == F.Xor(F.At(a, x, y, z), F.BlockBit(block, 64 * (x + 5 * y) + z))
  {
    hide F.At, F.BlockBit;
  }

  lemma XorEmptyBlock(a: F.State)
    ensures F.XorBlock(a, []) == a
  {
    hide F.At, F.XorBlock;
    forall x, y, z | 0 <= x < 5 && 0 <= y < 5 && 0 <= z < 64
      ensures F.At(F.XorBlock(a, []), x, y, z) == F.At(a, x, y, z)
    {
      XorBlockAt(a, [], x, y, z);
    }
    F.StateExtensionality(F.XorBlock(a, []), a);
  }

  /** The padded last block: what is left of the message, a one, zeros, and a one. */
  function LastBlock(rest: seq<bool>): (b: seq<bool>)
    requires |rest| <= 1086
    ensures |b| == 1088
  {
    rest + [true] + F.Zeros(1086 - |rest|) + [true]
  }

  /** The two padding bytes 0x01 and 0x80 complete the last block, also when they share a byte. */
  lemma PadBytes(a: F.State, rest: seq<bool>, s: seq<int>, rem: nat)
    requires Words(s) && rem < 136 && |rest| == 8 * rem && StateOf(s) == F.XorBlock(a, rest)
    ensures var t := XorByte(XorByte(s, rem, 0x01), 135, 0x80);
            Words(t) && StateOf(t) == F.XorBlock(a, LastBlock(rest))
  {
    hide F.At, Bit, XorByte, StateOf, F.XorBlock;
    var m := XorByte(s, rem, 0x01);
    var t := XorByte(m, 135, 0x80);
    XorByteWords(s, rem, 0x01);
    XorByteWords(m, 135, 0x80);
    forall x, y, z | 0 <= x < 5 && 0 <= y < 5 && 0 <= z < 64
      ensures F.At(StateOf(t), x, y, z) == F.At(F.XorBlock(a, LastBlock(rest)), x, y, z)
    {
      var p := 64 * (x + 5 * y) + z;
      XorByteBit(s, rem, 0x01, x, y, z);
      XorByteBit(m, 135, 0x80, x, y, z);
      if 8 * rem <= p < 8 * rem + 8 { PadByteBits(p - 8 * rem); }
      if 1080 <= p < 1088 { PadByteBits(p - 1080); }
      XorBlockAt(a, rest, x, y, z);
      XorBlockAt(a, LastBlock(rest), x, y, z);
    }
    F.StateExtensionality(StateOf(t), F.XorBlock(a, LastBlock(rest)));
  }

  lemma PadByteBits(i: nat)
    requires i < 8
    ensures Bit(0x01, i) == (i == 0) && Bit(0x80, i) == (i == 7)
  {
    assert Bit(0x80, i) == Bit(Shl(1, 7), i);
    ShlBit(1, 7, i);
    if i > 0 { SignBit(0, i - 1); }
  }

  // ----- Whole messages

  lemma {:induction false} AbsorbAppend(a: F.State, blocks: seq<bool>, last: seq<bool>)
    requires |blocks| % 1088 == 0 && |last| == 1088
    ensures F.Absorb(a, blocks + last) == F.KeccakP(F.XorBlock(F.Absorb(a, blocks), last))
    decreases |blocks|
  {
    hide F.KeccakP, F.XorBlock;
    if blocks == [] {
      assert last[1088..] == [] && last[..1088] == last && blocks + last == last;
    } else {
      assert (blocks + last)[..1088] == blocks[..1088] && (blocks + last)[1088..] == blocks[1088..] + last;
      AbsorbAppend(F.KeccakP(F.XorBlock(a, blocks[..1088])), blocks[1088..], last);
    }
  }

  lemma BitsOfConcat(u: seq<Byte>, v: seq<Byte>)
    ensures BytesToBits(u + v) == BytesToBits(u) + BytesToBits(v)
  {
    hide Bit;
  }

  lemma BitsOfOne(v: Byte)
    ensures BytesToBits([v]) == ByteBits(v)
  {
    hide Bit;
  }

  /** The padded message is its whole blocks followed by `LastBlock` of what is left. */
  lemma PaddedMessage(data: seq<Byte>, full: nat)
    requires full % 136 == 0 && full <= |data| < full + 136
    ensures var m := BytesToBits(data);
            m + F.Pad(|m|) == BytesToBits(data[..full]) + LastBlock(BytesToBits(data[full..]))
  {
    hide BytesToBits;
    var m, rest := BytesToBits(data), BytesToBits(data[full..]);
    assert data == data[..full] + data[full..];
    BitsOfConcat(data[..full], data[full..]);
    PadLength(|data|, full);
    assert F.Pad(|m|) == [true] + F.Zeros(1086 - |rest|) + [true];
  }

  lemma PadLength(n: nat, full: nat)
    requires full % 136 == 0 && full <= n < full + 136
    ensures (-(8 * n) - 2) % 1088 == 1086 - 8 * (n - full)
  {
    var q := full / 136;
    assert -(8 * n) - 2 == 1088 * (-q - 1) + (1086 - 8 * (n - full));
  }

  function State0(data: seq<Byte>): F.State
    requires |data| % 136 == 0
  {
    F.Absorb(F.ZeroState(), BytesToBits(data))
  }

  /** The cells hold every whole block of `data[..n]`, permuted, and the bytes after them, not yet. */
  predicate Absorbed(s: seq<int>, data: seq<Byte>, full: nat, n: nat)
    requires full % 136 == 0 && full <= n <= |data|
  {
    Words(s) && StateOf(s) == F.XorBlock(State0(data[..full]), BytesToBits(data[full..n]))
  }

  lemma AbsorbedStart(s: seq<int>, data: seq<Byte>)
    requires |s| == 25 && forall k | 0 <= k < 25 :: s[k] == 0
    ensures Absorbed(s, data, 0, 0)
  {
    hide F.At, Bit, F.XorBlock;
    forall x, y, z | 0 <= x < 5 && 0 <= y < 5 && 0 <= z < 64
      ensures F.At(StateOf(s), x, y, z) == F.At(F.ZeroState(), x, y, z)
    {
      AtStateOf(s, x, y, z);
      SignBit(0, z);
    }
    F.StateExtensionality(StateOf(s), F.ZeroState());
    assert data[..0] == [] && data[0..0] == [] && BytesToBits([]) == [];
    XorEmptyBlock(F.ZeroState());
  }

  lemma AbsorbedByte(s: seq<int>, data: seq<Byte>, full: nat, n: nat)
    requires full % 136 == 0 && full <= n < |data| && n < full + 136 && Absorbed(s, data, full, n)
    ensures Absorbed(XorByte(s, n - full, data[n]), data, full, n + 1)
  {
    hide XorByte, StateOf, F.XorBlock, BytesToBits, State0;
    AbsorbByte(State0(data[..full]), BytesToBits(data[full..n]), s, n - full, data[n]);
    assert data[full..n + 1] == data[full..n] + [data[n]];
    BitsOfConcat(data[full..n], [data[n]]);
    BitsOfOne(data[n]);
  }

  lemma AbsorbedBlock(s: seq<int>, t: seq<int>, data: seq<Byte>, full: nat)
    requires full % 136 == 0 && full + 136 <= |data| && Absorbed(s, data, full, full + 136)
    requires Words(t) && StateOf(t) == F.KeccakP(StateOf(s))
    ensures Absorbed(t, data, full + 136, full + 136)
  {
    hide StateOf, F.XorBlock, BytesToBits, F.KeccakP, F.Absorb;
    var blocks, last := BytesToBits(data[..full]), BytesToBits(data[full..full + 136]);
    AbsorbAppend(F.ZeroState(), blocks, last);
    assert data[..full + 136] == data[..full] + data[full..full + 136];
    BitsOfConcat(data[..full], data[full..full + 136]);
    EmptyBits(data, full + 136);
    XorEmptyBlock(State0(data[..full + 136]));
  }

  lemma EmptyBits(data: seq<Byte>, n: nat)
    requires n <= |data|
    ensures BytesToBits(data[n..n]) == []
  {
    assert data[n..n] == [];
  }

  /** The cells are the sponge's state after the last block. */
  predicate Finished(t: seq<int>, data: seq<Byte>) {
    Words(t) && var m := BytesToBits(data); StateOf(t) == F.Absorb(F.ZeroState(), m + F.Pad(|m|))
  }

  lemma AbsorbedPadding(s: seq<int>, t: seq<int>, data: seq<Byte>, full: nat)
    requires full % 136 == 0 && full <= |data| < full + 136 && Absorbed(s, data, full, |data|)
    requires Words(t) && StateOf(t) == F.KeccakP(StateOf(XorByte(XorByte(s, |data| - full, 0x01), 135, 0x80)))
    ensures Finished(t, data)
  {
    hide StateOf, F.XorBlock, BytesToBits, F.KeccakP, F.Absorb, F.Pad, XorByte, LastBlock;
    var rest := BytesToBits(data[full..]);
    assert data[full..|data|] == data[full..];
    PadBytes(State0(data[..full]), rest, s, |data| - full);
    PaddedMessage(data, full);
    AbsorbAppend(F.ZeroState(), BytesToBits(data[..full]), LastBlock(rest));
  }

  // ----- Reading the digest

  lemma OutputBits(s: seq<int>, i: nat)
    requires Words(s) && i < 32
    ensures 0 <= And(Shr(s[i / 8], 8 * (i % 8)), 0xff) < 256
    ensures And(Shr(s[i / 8], 8 * (i % 8)), 0xff) == FromBits(F.StateString(StateOf(s))[8 * i..8 * i + 8])
  {
    hide Bit, And, Shr, FromBits, F.StateString;
    var v, sh := s[i / 8], 8 * (i % 8);
    var bits := F.StateString(StateOf(s))[8 * i..8 * i + 8];
    var out := And(Shr(v, sh), 0xff);
    AndRange(Shr(v, sh), 0xff);
    FromBitsRange(bits);
    assert Pow2(8) == 256 by { Powers(); }
    forall j: nat | j < 8 ensures Bit(out, j) == Bit(FromBits(bits), j) {
      AndBit(Shr(v, sh), 0xff, j);
      MaskBit(8, j);
      ShrBit(v, sh, j);
      FromBitsBit(bits, j);
      StringBit(s, i, j);
    }
    WordExtensionality(out, FromBits(bits), 8);
  }

  lemma StringBit(s: seq<int>, i: nat, j: nat)
    requires Words(s) && i < 32 && j < 8
    ensures F.StateString(StateOf(s))[8 * i..8 * i + 8][j] == Bit(s[i / 8], 8 * (i % 8) + j)
  {
    hide Bit;
    assert (8 * i + j) / 64 == i / 8 && (8 * i + j) % 64 == 8 * (i % 8) + j;
    assert StateOf(s)[i / 8] == LaneOf(s[i / 8]);
  }

  lemma DigestByte(s: seq<int>, data: seq<Byte>, i: nat)
    requires Finished(s, data) && i < 32
    ensures And(Shr(s[i / 8], 8 * (i % 8)), 0xff) == DigestBytes(data)[i]
  {
    hide And, Shr, FromBits, StateOf, BytesToBits, F.Absorb, F.Pad;
    OutputBits(s, i);
    assert F.StateString(StateOf(s))[..256][8 * i..8 * i + 8] == F.StateString(StateOf(s))[8 * i..8 * i + 8];
  }

  // ----- The program

  method AbsorbBlock(state: array<int>, block: seq<Byte>, ghost data: seq<Byte>, ghost offset: nat)
    requires state.Length == 25 && offset % 136 == 0 && |block| <= 136
    requires offset + |block| <= |data| && data[offset..offset + |block|] == block
    requires Absorbed(state[..], data, offset, offset)
    modifies state
    ensures Absorbed(state[..], data, offset, offset + |block|)
  {
    hide *;
    for i := 0 to |block|
      invariant Absorbed(state[..], data, offset, offset + i)
    {
      ghost var s := state[..];
      AbsorbedByte(s, data, offset, offset + i);
      AbsorbedWords(s, data, offset, offset + i);
      XorByteIs(s, i, block[i]);
      assert block[i] == data[offset + i];
      state[i / 8] := Xor(state[i / 8], Shl(block[i], 8 * (i % 8)));
      assert state[..] == XorByte(s, i, block[i]);
    }
  }

  lemma AbsorbedWords(s: seq<int>, data: seq<Byte>, full: nat, n: nat)
    requires full % 136 == 0 && full <= n <= |data| && Absorbed(s, data, full, n)
    ensures Words(s) && |s| == 25
  {
  }

  lemma XorByteIs(s: seq<int>, i: nat, v: int)
    requires |s| == 25 && i < 200
    ensures XorByte(s, i, v) == s[i / 8 := Xor(s[i / 8], Shl(v, 8 * (i % 8)))]
  {
  }

  method AbsorbAll(state: array<int>, bytes: seq<Byte>)
    requires state.Length == 25 && forall k | 0 <= k < 25 :: state[k] == 0
    modifies state
    ensures Absorbed(state[..], bytes, |bytes| - |bytes| % 136, |bytes|)
  {
    hide *;
    var rate := 136;
    AbsorbedStart(state[..], bytes);
    var offset := 0;
    ghost var full, n := 0, 0;
    while offset < |bytes|
      invariant 0 <= offset && offset % 136 == 0
      invariant n == if offset <= |bytes| then offset else |bytes|
      invariant full == if offset <= |bytes| then offset else offset - 136
      invariant full <= n
      invariant Absorbed(state[..], bytes, full, n)
    {
      var end := if offset + rate < |bytes| then offset + rate else |bytes|;
      var block := bytes[offset..end];
      AbsorbBlock(state, block, bytes, offset);
      if |block| == rate {
        ghost var s := state[..];
        AbsorbedWords(s, bytes, offset, offset + 136);
        Keccak.KeccakF(state);
        AbsorbedBlock(s, state[..], bytes, offset);
        full := offset + 136;
      }
      offset := offset + rate;
      n := end;
    }
    assert full == |bytes| - |bytes| % 136;
  }

  method PadAndPermute(state: array<int>, bytes: seq<Byte>)
    requires state.Length == 25 && Absorbed(state[..], bytes, |bytes| - |bytes| % 136, |bytes|)
    modifies state
    ensures Finished(state[..], bytes)
  {
    hide *;
    var rate := 136;
    var rem := |bytes| % rate;
    ghost var s := state[..];
    AbsorbedWords(s, bytes, |bytes| - rem, |bytes|);
    XorByteIs(s, rem, 0x01);
    state[rem / 8] := Xor(state[rem / 8], Shl(0x01, 8 * (rem % 8)));
    assert state[..] == XorByte(s, rem, 0x01);
    XorByteIs(state[..], rate - 1, 0x80);
    state[(rate - 1) / 8] := Xor(state[(rate - 1) / 8], Shl(0x80, 8 * ((rate - 1) % 8)));
    assert state[..] == XorByte(XorByte(s, rem, 0x01), 135, 0x80);
    PaddedWords(s, rem);
    Keccak.KeccakF(state);
    AbsorbedPadding(s, state[..], bytes, |bytes| - rem);
  }

  method Squeeze(state: array<int>, ghost bytes: seq<Byte>) returns (out: array<int>)
    requires state.Length == 25 && Finished(state[..], bytes)
    ensures out.Length == 32 && out[..] == DigestBytes(bytes)
  {
    hide *;
    ghost var s := state[..];
    out := new int[32](_ => 0);
    for i := 0 to 32
      invariant state[..] == s
      invariant out[..i] == DigestBytes(bytes)[..i]
    {
      DigestByte(s, bytes, i);
      out[i] := And(Shr(state[i / 8], 8 * (i % 8)), 0xff);
      assert out[..i + 1] == out[..i] + [out[i]];
      assert DigestBytes(bytes)[..i + 1] == DigestBytes(bytes)[..i] + [DigestBytes(bytes)[i]];
    }
    assert out[..] == out[..32];
    assert DigestBytes(bytes) == DigestBytes(bytes)[..32];
  }

  /** For every byte string, the returned text is the hexadecimal digest of the standard's sponge. */
  method Keccak256(bytes: seq<Byte>) returns (text: string)
    ensures text == Digest(bytes)
  {
    var state := new int[25](_ => 0);
    hide *;
    AbsorbAll(state, bytes);
    PadAndPermute(state, bytes);
    var out := Squeeze(state, bytes);
    text := "0x" + Hex(out[..]);
    DigestIs(bytes);
  }

  lemma PaddedWords(s: seq<int>, rem: nat)
    requires Words(s) && rem < 136
    ensures Words(XorByte(XorByte(s, rem, 0x01), 135, 0x80))
  {
    hide XorByte;
    XorByteWords(s, rem, 0x01);
    XorByteWords(XorByte(s, rem, 0x01), 135, 0x80);
  }

  lemma DigestIs(data: seq<Byte>)
    ensures Digest(data) == "0x" + Hex(DigestBytes(data))
  {
  }
}
