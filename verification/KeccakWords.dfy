/** The words of the program's Keccak-256: its rotation and its two tables over unbounded integers,
    tied bit for bit to the rotations and the generated tables of `Fips202`. */
module KeccakWords {
  import opened BigInts
  import F = Fips202

  const MASK_64: int := 0xffff_ffff_ffff_ffff

  /** The program's rotation offset of lane (x, y). */
  function RotationOffset(x: nat, y: nat): nat
    requires x < 5 && y < 5
  {
    match x
    case 0 => (match y case 0 => 0 case 1 => 36 case 2 => 3 case 3 => 41 case _ => 18)
    case 1 => (match y case 0 => 1 case 1 => 44 case 2 => 10 case 3 => 45 case _ => 2)
    case 2 => (match y case 0 => 62 case 1 => 6 case 2 => 43 case 3 => 15 case _ => 61)
    case 3 => (match y case 0 => 28 case 1 => 55 case 2 => 25 case 3 => 21 case _ => 56)
    case _ => (match y case 0 => 27 case 1 => 20 case 2 => 39 case 3 => 8 case _ => 14)
  }

  /** The program's constant of round ir. */
  function RoundConstant(ir: nat): int
    requires ir < 24
  {
    match ir
    case 0 => 0x0000000000000001 case 1 => 0x0000000000008082 case 2 => 0x800000000000808a
    case 3 => 0x8000000080008000 case 4 => 0x000000000000808b case 5 => 0x0000000080000001
    case 6 => 0x8000000080008081 case 7 => 0x8000000000008009 case 8 => 0x000000000000008a
    case 9 => 0x0000000000000088 case 10 => 0x0000000080008009 case 11 => 0x000000008000000a
    case 12 => 0x000000008000808b case 13 => 0x800000000000008b case 14 => 0x8000000000008089
    case 15 => 0x8000000000008003 case 16 => 0x8000000000008002 case 17 => 0x8000000000000080
    case 18 => 0x000000000000800a case 19 => 0x800000008000000a case 20 => 0x8000000080008081
    case 21 => 0x8000000000008080 case 22 => 0x0000000080000001 case _ => 0x8000000080008008
  }

  function Rot(value: int, shift: nat): int {
    var n := shift % 64;
    if n == 0 then And(value, MASK_64)
    else And(Or(Shl(value, n), Shr(value, 64 - n)), MASK_64)
  }

  // ----- Words and states

  predicate Word(v: int) { 0 <= v <= MASK_64 }

  /** 25 cells, each of them below 2^64. */
  predicate Words(s: seq<int>) {
    |s| == 25 && forall k | 0 <= k < 25 :: Word(s[k])
  }

  function LaneOf(v: int): (l: F.Lane)
    ensures forall z: nat | z < 64 :: l[z] == Bit(v, z)
  {
    seq(64, z requires 0 <= z < 64 => Bit(v, z))
  }

  /** The state array whose lanes are the bits of the cells. */
  function StateOf(s: seq<int>): (a: F.State)
    requires |s| == 25
    ensures forall k | 0 <= k < 25 :: a[k] == LaneOf(s[k])
  {
    seq(25, k requires 0 <= k < 25 => LaneOf(s[k]))
  }

  lemma Powers()
    ensures Pow2(1) == 2 && Pow2(2) == 4 && Pow2(4) == 0x10 && Pow2(8) == 0x100
    ensures Pow2(16) == 0x1_0000 && Pow2(32) == 0x1_0000_0000
  {
    assert Pow2(3) == 8;
    Pow2Sum(4, 4);
    Pow2Sum(8, 8);
    Pow2Sum(16, 16);
  }

  lemma Mask64()
    ensures Pow2(64) - 1 == MASK_64
  {
    Powers();
    Pow2Sum(32, 32);
  }

  /** Cells in range are determined by the bits of the state array. */
  lemma StateOfInjective(s: seq<int>, t: seq<int>)
    requires Words(s) && Words(t) && StateOf(s) == StateOf(t)
    ensures s == t
  {
    Mask64();
    forall k | 0 <= k < 25 ensures s[k] == t[k] {
      assert LaneOf(s[k]) == StateOf(s)[k] == StateOf(t)[k] == LaneOf(t[k]);
      forall i: nat | i < 64 ensures Bit(s[k], i) == Bit(t[k], i) {
        assert LaneOf(s[k])[i] == LaneOf(t[k])[i];
      }
      WordExtensionality(s[k], t[k], 64);
    }
  }

  lemma MaskedBit(v: int, z: nat)
    ensures Word(And(v, MASK_64))
    ensures z < 64 ==> Bit(And(v, MASK_64), z) == Bit(v, z)
  {
    Mask64();
    AndRange(v, MASK_64);
    AndBit(v, MASK_64, z);
    MaskBit(64, z);
  }

  /** On a word, `rot` is the rotation of the standard, for every shift. */
  lemma RotBit(v: int, shift: nat, z: nat)
    requires Word(v) && z < 64
    ensures Word(Rot(v, shift))
    ensures Bit(Rot(v, shift), z) == Bit(v, (z - shift) % 64)
  {
    hide And, Or, Shl, Shr, Bit, Pow2;
    Mask64();
    var n := shift % 64;
    assert (z - shift) % 64 == (z - n) % 64;
    if n == 0 {
      MaskedBit(v, z);
    } else {
      MaskedBit(Or(Shl(v, n), Shr(v, 64 - n)), z);
      OrBit(Shl(v, n), Shr(v, 64 - n), z);
      ShlBit(v, n, z);
      ShrBit(v, 64 - n, z);
      if z >= n { HighBitsClear(v, 64, z + 64 - n); }
    }
  }

  // ----- The tables are those the standard generates

  /** The step at which the walk visits (x, y); it never visits the origin. */
  function Visit(x: nat, y: nat): (t: nat)
    requires x < 5 && y < 5
    ensures t <= 24
  {
    match x
    case 0 => (match y case 0 => 24 case 1 => 7 case 2 => 1 case 3 => 13 case _ => 19)
    case 1 => (match y case 0 => 0 case 1 => 23 case 2 => 3 case 3 => 8 case _ => 10)
    case 2 => (match y case 0 => 18 case 1 => 2 case 2 => 17 case 3 => 4 case _ => 21)
    case 3 => (match y case 0 => 6 case 1 => 9 case 2 => 16 case 3 => 5 case _ => 14)
    case _ => (match y case 0 => 12 case 1 => 22 case 2 => 20 case 3 => 15 case _ => 11)
  }

  lemma WalkSteps()
    ensures F.Walk(0) == (1, 0) && F.Walk(1) == (0, 2) && F.Walk(2) == (2, 1) && F.Walk(3) == (1, 2) &&
            F.Walk(4) == (2, 3) && F.Walk(5) == (3, 3) && F.Walk(6) == (3, 0) && F.Walk(7) == (0, 1) &&
            F.Walk(8) == (1, 3) && F.Walk(9) == (3, 1) && F.Walk(10) == (1, 4) && F.Walk(11) == (4, 4) &&
            F.Walk(12) == (4, 0) && F.Walk(13) == (0, 3) && F.Walk(14) == (3, 4) && F.Walk(15) == (4, 3) &&
            F.Walk(16) == (3, 2) && F.Walk(17) == (2, 2) && F.Walk(18) == (2, 0) && F.Walk(19) == (0, 4) &&
            F.Walk(20) == (4, 2) && F.Walk(21) == (2, 4) && F.Walk(22) == (4, 1) && F.Walk(23) == (1, 1)
  {
  }

  lemma VisitStep(t: nat, x: nat, y: nat)
    requires t < 24 && F.Walk(t) == (x, y)
    ensures x < 5 && y < 5 && Visit(x, y) == t
  {
    WalkSteps();
  }

  lemma VisitCovers(x: nat, y: nat)
    requires x < 5 && y < 5
    ensures Visit(x, y) < 24 ==> F.Walk(Visit(x, y)) == (x, y)
    ensures Visit(x, y) >= 24 ==> x == 0 && y == 0
  {
    WalkSteps();
  }

  lemma {:induction false} OffsetSearch(x: nat, y: nat, t: nat)
    requires x < 5 && y < 5 && t <= Visit(x, y) <= 24
    ensures F.OffsetFrom(x, y, t) == if Visit(x, y) < 24 then (Visit(x, y) + 1) * (Visit(x, y) + 2) / 2 else 0
    decreases 24 - t
  {
    VisitCovers(x, y);
    if t < Visit(x, y) {
      VisitStep(t, F.Walk(t).0, F.Walk(t).1);
      OffsetSearch(x, y, t + 1);
    }
  }

  lemma TableEntry(x: nat, y: nat)
    requires x < 5 && y < 5
    ensures var t := Visit(x, y); RotationOffset(x, y) == if t < 24 then (t + 1) * (t + 2) / 2 % 64 else 0
  {
    match x
    case 0 => match y { case 0 => case 1 => case 2 => case 3 => case _ => }
    case 1 => match y { case 0 => case 1 => case 2 => case 3 => case _ => }
    case 2 => match y { case 0 => case 1 => case 2 => case 3 => case _ => }
    case 3 => match y { case 0 => case 1 => case 2 => case 3 => case _ => }
    case _ => match y { case 0 => case 1 => case 2 => case 3 => case _ => }
  }

  /** The table holds the offsets of the walk, modulo 64. */
  lemma TableIsWalk(x: nat, y: nat)
    requires x < 5 && y < 5
    ensures RotationOffset(x, y) == F.Offset(x, y) % 64
  {
    hide RotationOffset, F.OffsetFrom, Visit;
    OffsetSearch(x, y, 0);
    TableEntry(x, y);
  }

  /** Seven shifts at once. */
  function SevenShifts(r: F.Register): F.Register {
    F.Register(F.Xor(F.Xor(r.r1, r.r3), r.r4), F.Xor(F.Xor(r.r2, r.r4), r.r5), F.Xor(F.Xor(r.r3, r.r5), r.r6),
     F.Xor(F.Xor(r.r4, r.r6), r.r7), F.Xor(F.Xor(F.Xor(F.Xor(r.r1, r.r3), r.r4), r.r5), r.r7),
     F.Xor(F.Xor(F.Xor(F.Xor(r.r1, r.r2), r.r3), r.r5), r.r6), F.Xor(F.Xor(F.Xor(r.r1, r.r2), r.r6), r.r7),
     F.Xor(F.Xor(F.Xor(r.r0, r.r2), r.r3), r.r7))
  }

  /** The shift register at the start of round `ir`. */
  function RoundRegister(ir: nat): F.Register
    requires ir < 24
  {
    match ir
    case 0 => F.Register(true, false, false, false, false, false, false, false)
    case 1 => F.Register(false, false, false, false, false, false, false, true)
    case 2 => F.Register(false, false, false, true, true, false, true, true)
    case 3 => F.Register(false, true, false, true, true, false, false, false)
    case 4 => F.Register(true, true, true, true, true, false, true, true)
    case 5 => F.Register(true, false, false, true, false, false, false, false)
    case 6 => F.Register(true, false, true, false, true, true, false, false)
    case 7 => F.Register(true, true, true, true, false, false, true, false)
    case 8 => F.Register(false, true, false, true, false, false, true, true)
    case 9 => F.Register(false, false, false, false, true, true, true, false)
    case 10 => F.Register(true, false, false, false, false, false, true, false)
    case 11 => F.Register(false, false, true, true, false, true, true, true)
    case 12 => F.Register(true, false, true, false, true, false, true, true)
    case 13 => F.Register(true, false, true, true, false, false, true, true)
    case 14 => F.Register(true, true, false, false, false, true, true, false)
    case 15 => F.Register(true, true, false, true, false, true, false, true)
    case 16 => F.Register(false, true, false, true, false, true, false, true)
    case 17 => F.Register(false, true, false, true, false, true, false, false)
    case 18 => F.Register(false, true, false, false, true, true, true, true)
    case 19 => F.Register(false, false, false, true, false, true, true, true)
    case 20 => F.Register(true, true, true, false, true, true, false, false)
    case 21 => F.Register(false, true, true, true, true, true, false, false)
    case 22 => F.Register(true, true, false, true, false, false, false, false)
    case _ => F.Register(false, false, true, false, false, false, true, false)
  }

  lemma RoundRegisterStep(ir: nat)
    requires 0 < ir < 24
    ensures RoundRegister(ir) == SevenShifts(RoundRegister(ir - 1))
  {
    match ir
    case 1 => case 2 => case 3 => case 4 => case 5 => case 6 => case 7 => case 8 => case 9 => case 10 => case 11 =>
    case 12 => case 13 => case 14 => case 15 => case 16 => case 17 => case 18 => case 19 => case 20 => case 21 => case 22 => case _ =>
  }

  lemma SevenShiftsIs(r: F.Register)
    ensures F.Shifted(F.Shifted(F.Shifted(F.Shifted(F.Shifted(F.Shifted(F.Shifted(r))))))) == SevenShifts(r)
  {
  }

  lemma RegisterNext(t: nat)
    ensures F.RegisterAfter(t + 1) == F.Shifted(F.RegisterAfter(t))
  {
  }

  lemma RegisterRun(t: nat)
    ensures F.RegisterAfter(t + 7) == SevenShifts(F.RegisterAfter(t))
    ensures F.RegisterAfter(t + 1) == F.Shifted(F.RegisterAfter(t))
    ensures F.RegisterAfter(t + 2) == F.Shifted(F.RegisterAfter(t + 1))
    ensures F.RegisterAfter(t + 3) == F.Shifted(F.RegisterAfter(t + 2))
    ensures F.RegisterAfter(t + 4) == F.Shifted(F.RegisterAfter(t + 3))
    ensures F.RegisterAfter(t + 5) == F.Shifted(F.RegisterAfter(t + 4))
    ensures F.RegisterAfter(t + 6) == F.Shifted(F.RegisterAfter(t + 5))
  {
    RegisterNext(t); RegisterNext(t + 1); RegisterNext(t + 2); RegisterNext(t + 3);
    RegisterNext(t + 4); RegisterNext(t + 5); RegisterNext(t + 6);
    SevenShiftsIs(F.RegisterAfter(t));
  }

  lemma RegisterRunTo(ir: nat, before: F.Register, after: F.Register)
    requires ir > 0 && F.RegisterAfter(7 * (ir - 1)) == before && after == SevenShifts(before)
    ensures F.RegisterAfter(7 * ir) == after
  {
    hide SevenShifts, F.RegisterAfter;
    RegisterRun(7 * (ir - 1));
  }

  lemma {:induction false} RoundRegisterRun(ir: nat)
    requires ir < 24
    ensures F.RegisterAfter(7 * ir) == RoundRegister(ir)
  {
    if ir > 0 {
      RoundRegisterRun(ir - 1);
      RoundRegisterStep(ir);
      RegisterRunTo(ir, RoundRegister(ir - 1), RoundRegister(ir));
    }
  }

  function Digit(b: bool): nat { if b then 1 else 0 }

  /** The seven bits at positions 2^j - 1, as one number. */
  function Spread(b0: bool, b1: bool, b3: bool, b7: bool, b15: bool, b31: bool, b63: bool): nat {
    Digit(b0) + 2 * (Digit(b1) + 4 * (Digit(b3) + 0x10 * (Digit(b7) + 0x100 * (Digit(b15) +
    0x1_0000 * (Digit(b31) + 0x1_0000_0000 * Digit(b63))))))
  }

  lemma DigitBit(b: bool, i: nat)
    ensures Bit(Digit(b), i) == (i == 0 && b)
  {
    if i > 0 { SignBit(0, i - 1); }
  }

  lemma DigitSumBit(b: bool, k: nat, high: nat, i: nat)
    requires k > 0
    ensures Bit(Digit(b) + Pow2(k) * high, i) == if i == 0 then b else i >= k && Bit(high, i - k)
  {
    BitOfSum(Digit(b), high, k, i);
    DigitBit(b, i);
  }

  lemma UpperBits(b7: bool, b15: bool, b31: bool, b63: bool, i: nat)
    ensures Bit(Digit(b7) + 0x100 * (Digit(b15) + 0x1_0000 * (Digit(b31) + 0x1_0000_0000 * Digit(b63))), i) ==
            ((i == 0 && b7) || (i == 8 && b15) || (i == 24 && b31) || (i == 56 && b63))
  {
    hide Bit, Digit, Pow2;
    Powers();
    var n31 := Digit(b31) + 0x1_0000_0000 * Digit(b63);
    DigitSumBit(b7, 8, Digit(b15) + 0x1_0000 * n31, i);
    if i >= 8 { DigitSumBit(b15, 16, n31, i - 8); }
    if i >= 24 { DigitSumBit(b31, 32, Digit(b63), i - 24); }
    if i >= 56 { DigitBit(b63, i - 56); }
  }

  lemma MiddleBits(b3: bool, b7: bool, b15: bool, b31: bool, b63: bool, i: nat)
    ensures Bit(Digit(b3) + 0x10 * (Digit(b7) + 0x100 * (Digit(b15) + 0x1_0000 * (Digit(b31) + 0x1_0000_0000 * Digit(b63)))), i) ==
            ((i == 0 && b3) || (i == 4 && b7) || (i == 12 && b15) || (i == 28 && b31) || (i == 60 && b63))
  {
    hide Bit, Digit, Pow2;
    Powers();
    DigitSumBit(b3, 4, Digit(b7) + 0x100 * (Digit(b15) + 0x1_0000 * (Digit(b31) + 0x1_0000_0000 * Digit(b63))), i);
    if i >= 4 { UpperBits(b7, b15, b31, b63, i - 4); }
  }

  lemma SpreadBit(b0: bool, b1: bool, b3: bool, b7: bool, b15: bool, b31: bool, b63: bool, i: nat)
    ensures Bit(Spread(b0, b1, b3, b7, b15, b31, b63), i) ==
            ((i == 0 && b0) || (i == 1 && b1) || (i == 3 && b3) || (i == 7 && b7) ||
             (i == 15 && b15) || (i == 31 && b31) || (i == 63 && b63))
  {
    hide Bit, Digit, Pow2;
    Powers();
    var n3 := Digit(b3) + 0x10 * (Digit(b7) + 0x100 * (Digit(b15) + 0x1_0000 * (Digit(b31) + 0x1_0000_0000 * Digit(b63))));
    DigitSumBit(b0, 1, Digit(b1) + 4 * n3, i);
    if i >= 1 { DigitSumBit(b1, 2, n3, i - 1); }
    if i >= 3 { MiddleBits(b3, b7, b15, b31, b63, i - 3); }
  }

  /** What the register says the constant is. */
  function ConstantFrom(r: F.Register): nat {
    Spread(r.r0, r.r7, r.r6, F.Xor(r.r5, r.r7), F.Xor(F.Xor(r.r4, r.r6), r.r7), F.Xor(F.Xor(r.r3, r.r5), r.r6),
           F.Xor(F.Xor(r.r2, r.r4), r.r5))
  }

  lemma ConstantTableLow(ir: nat)
    requires ir < 12
    ensures RoundConstant(ir) == ConstantFrom(RoundRegister(ir))
  {
    match ir
    case 0 => case 1 => case 2 => case 3 => case 4 => case 5 => case 6 => case 7 => case 8 => case 9 => case 10 => case _ =>
  }

  lemma ConstantTableHigh(ir: nat)
    requires 12 <= ir < 24
    ensures RoundConstant(ir) == ConstantFrom(RoundRegister(ir))
  {
    match ir
    case 12 => case 13 => case 14 => case 15 => case 16 => case 17 => case 18 => case 19 => case 20 => case 21 => case 22 => case _ =>
  }

  lemma RoundBitLow(t: nat)
    requires t < 255
    ensures F.RoundBit(t) == F.RegisterAfter(t).r0
  {
    hide F.RegisterAfter;
    assert t % 255 == t;
  }

  lemma ConstantBits(ir: nat)
    requires ir < 24
    ensures var r, t := RoundRegister(ir), 7 * ir;
            F.RoundBit(t) == r.r0 && F.RoundBit(t + 1) == r.r7 && F.RoundBit(t + 2) == r.r6 &&
            F.RoundBit(t + 3) == F.Xor(r.r5, r.r7) && F.RoundBit(t + 4) == F.Xor(F.Xor(r.r4, r.r6), r.r7) &&
            F.RoundBit(t + 5) == F.Xor(F.Xor(r.r3, r.r5), r.r6) && F.RoundBit(t + 6) == F.Xor(F.Xor(r.r2, r.r4), r.r5)
  {
    hide RoundRegister, F.RegisterAfter, F.RoundBit, SevenShifts;
    RoundRegisterRun(ir);
    RegisterRun(7 * ir);
    RoundBitLow(7 * ir); RoundBitLow(7 * ir + 1); RoundBitLow(7 * ir + 2); RoundBitLow(7 * ir + 3);
    RoundBitLow(7 * ir + 4); RoundBitLow(7 * ir + 5); RoundBitLow(7 * ir + 6);
  }

  /** Each round constant of the program has exactly the bits of the standard's round constant. */
  lemma ConstantBit(ir: nat, z: nat)
    requires ir < 24
    ensures Bit(RoundConstant(ir), z) == F.RoundConstantBit(ir, z)
  {
    hide RoundConstant, RoundRegister, F.RoundBit, Bit, Spread;
    var r := RoundRegister(ir);
    if ir < 12 { ConstantTableLow(ir); } else { ConstantTableHigh(ir); }
    ConstantBits(ir);
    SpreadBit(r.r0, r.r7, r.r6, F.Xor(r.r5, r.r7), F.Xor(F.Xor(r.r4, r.r6), r.r7), F.Xor(F.Xor(r.r3, r.r5), r.r6),
              F.Xor(F.Xor(r.r2, r.r4), r.r5), z);
  }

  // ----- The step mappings on words

  lemma AtStateOf(s: seq<int>, x: nat, y: nat, z: nat)
    requires |s| == 25 && x < 5 && y < 5 && z < 64
    ensures F.At(StateOf(s), x, y, z) == Bit(s[x + 5 * y], z)
  {
    assert StateOf(s)[x + 5 * y] == LaneOf(s[x + 5 * y]);
  }

  lemma XorWord(a: int, b: int, z: nat)
    requires Word(a) && Word(b)
    ensures Word(Xor(a, b)) && Bit(Xor(a, b), z) == F.Xor(Bit(a, z), Bit(b, z))
  {
    Mask64();
    XorRange(a, b, 64);
    XorBit(a, b, z);
  }

  function ParityWord(s: seq<int>, x: nat): int
    requires |s| == 25 && x < 5
  {
    Xor(Xor(Xor(Xor(s[x], s[x + 5]), s[x + 10]), s[x + 15]), s[x + 20])
  }

  function EffectWord(s: seq<int>, x: nat): int
    requires |s| == 25 && x < 5
  {
    Xor(ParityWord(s, (x + 4) % 5), Rot(ParityWord(s, (x + 1) % 5), 1))
  }

  lemma ParityBit(s: seq<int>, x: nat, z: nat)
    requires Words(s) && x < 5 && z < 64
    ensures Word(ParityWord(s, x)) && Bit(ParityWord(s, x), z) == F.Column(StateOf(s), x, z)
  {
    hide Xor, Bit, F.At;
    var p1 := Xor(s[x], s[x + 5]);
    var p2 := Xor(p1, s[x + 10]);
    var p3 := Xor(p2, s[x + 15]);
    XorWord(s[x], s[x + 5], z);
    XorWord(p1, s[x + 10], z);
    XorWord(p2, s[x + 15], z);
    XorWord(p3, s[x + 20], z);
    AtStateOf(s, x, 0, z);
    AtStateOf(s, x, 1, z);
    AtStateOf(s, x, 2, z);
    AtStateOf(s, x, 3, z);
    AtStateOf(s, x, 4, z);
  }

  lemma EffectColumns(s: seq<int>, left: nat, right: nat, z: nat, below: nat)
    requires Words(s) && left < 5 && right < 5 && z < 64 && below < 64 && below == (z - 1) % 64
    ensures Word(Xor(ParityWord(s, left), Rot(ParityWord(s, right), 1)))
    ensures Bit(Xor(ParityWord(s, left), Rot(ParityWord(s, right), 1)), z) ==
            F.Xor(F.Column(StateOf(s), left, z), F.Column(StateOf(s), right, below))
  {
    hide F.Column, ParityWord, Xor, Rot, Bit;
    ParityBit(s, left, z);
    ParityBit(s, right, below);
    RotBit(ParityWord(s, right), 1, z);
    XorWord(ParityWord(s, left), Rot(ParityWord(s, right), 1), z);
  }

  lemma EffectBit(s: seq<int>, x: nat, z: nat)
    requires Words(s) && x < 5 && z < 64
    ensures Word(EffectWord(s, x)) && Bit(EffectWord(s, x), z) == F.ThetaEffect(StateOf(s), x, z)
  {
    hide F.Column, ParityWord, Bit;
    EffectColumns(s, (x + 4) % 5, (x + 1) % 5, z, (z - 1) % 64);
    assert (x - 1) % 5 == (x + 4) % 5;
  }

  /** What the first three loops store in cell (x, y). */
  predicate ThetaCell(s: seq<int>, t: seq<int>, x: nat, y: nat)
    requires |s| == 25 && |t| == 25 && x < 5 && y < 5
  {
    t[x + 5 * y] == And(Xor(s[x + 5 * y], EffectWord(s, x)), MASK_64)
  }

  lemma ThetaBit(s: seq<int>, t: seq<int>, x: nat, y: nat, z: nat)
    requires Words(s) && |t| == 25 && x < 5 && y < 5 && z < 64
    requires ThetaCell(s, t, x, y)
    ensures Word(t[x + 5 * y]) && F.At(StateOf(t), x, y, z) == F.At(F.Theta(StateOf(s)), x, y, z)
  {
    hide F.ThetaEffect, Bit, EffectWord;
    var v, e := s[x + 5 * y], EffectWord(s, x);
    AtStateOf(t, x, y, z);
    AtStateOf(s, x, y, z);
    EffectBit(s, x, z);
    XorBit(v, e, z);
    MaskedBit(Xor(v, e), z);
    F.ThetaAt(StateOf(s), x, y, z);
  }

  /** The first three loops of a round compute theta. */
  lemma ThetaBits(s: seq<int>, t: seq<int>)
    requires Words(s) && |t| == 25
    requires forall x: nat, y: nat | x < 5 && y < 5 :: ThetaCell(s, t, x, y)
    ensures Words(t) && StateOf(t) == F.Theta(StateOf(s))
  {
    hide F.ThetaEffect, Bit, EffectWord, ThetaCell;
    forall k | 0 <= k < 25 ensures Word(t[k]) { ThetaBit(s, t, k % 5, k / 5, 0); }
    forall x, y, z | 0 <= x < 5 && 0 <= y < 5 && 0 <= z < 64
      ensures F.At(StateOf(t), x, y, z) == F.At(F.Theta(StateOf(s)), x, y, z)
    {
      ThetaBit(s, t, x, y, z);
    }
    F.StateExtensionality(StateOf(t), F.Theta(StateOf(s)));
  }

  /** Where lane (x, y) goes in `b`. */
  function Target(x: nat, y: nat): (k: nat)
    requires x < 5 && y < 5
    ensures k < 25
  {
    y + 5 * ((2 * x + 3 * y) % 5)
  }

  /** The x coordinate of the lane that cell X + 5Y of `b` comes from; its y coordinate is X. */
  function OriginX(X: nat, Y: nat): (x: nat)
    ensures x < 5
  {
    (X + 3 * Y) % 5
  }

  lemma FiveMore(n: nat, k: int)
    requires n < 5
    ensures (n + 5 * k) % 5 == n && (n + 5 * k) / 5 == k
  {
  }

  lemma OriginOfTarget(x: nat, y: nat)
    requires x < 5 && y < 5
    ensures OriginX(y, (2 * x + 3 * y) % 5) == x
  {
    var q := (2 * x + 3 * y) / 5;
    assert y + 3 * ((2 * x + 3 * y) % 5) == x + 5 * (x + 2 * y - 3 * q);
    FiveMore(x, x + 2 * y - 3 * q);
  }

  lemma TargetOfOrigin(x: nat, y: nat)
    requires x < 5 && y < 5
    ensures (2 * OriginX(x, y) + 3 * x) % 5 == y
  {
    var q := (x + 3 * y) / 5;
    assert 2 * OriginX(x, y) + 3 * x == y + 5 * (x + y - 2 * q);
    FiveMore(y, x + y - 2 * q);
  }

  /** The combined rho and pi index map is a bijection: every cell of `b` is written exactly once. */
  lemma TargetBijection(x: nat, y: nat)
    requires x < 5 && y < 5
    ensures Target(OriginX(x, y), x) == x + 5 * y
    ensures var k := Target(x, y); OriginX(k % 5, k / 5) == x && k % 5 == y
  {
    OriginOfTarget(x, y);
    TargetOfOrigin(x, y);
    FiveMore(y, (2 * x + 3 * y) % 5);
  }

  /** What the fourth loop leaves in cell (x, y) of `b`. */
  predicate RhoPiCell(s: seq<int>, b: seq<int>, x: nat, y: nat)
    requires |s| == 25 && |b| == 25 && x < 5 && y < 5
  {
    b[x + 5 * y] == Rot(s[OriginX(x, y) + 5 * x], RotationOffset(OriginX(x, y), x))
  }

  lemma RotatedLane(s: seq<int>, u: nat, v: nat, z: nat)
    requires Words(s) && u < 5 && v < 5 && z < 64
    ensures Word(Rot(s[u + 5 * v], RotationOffset(u, v)))
    ensures Bit(Rot(s[u + 5 * v], RotationOffset(u, v)), z) == F.At(F.Rho(StateOf(s)), u, v, z)
  {
    hide Rot, RotationOffset, F.Offset, F.At, Bit, F.Rho;
    var from := (z - RotationOffset(u, v)) % 64;
    RotBit(s[u + 5 * v], RotationOffset(u, v), z);
    AtStateOf(s, u, v, from);
    OffsetModulo(u, v, z);
    F.RhoAt(StateOf(s), u, v, z);
  }

  lemma OffsetModulo(u: nat, v: nat, z: nat)
    requires u < 5 && v < 5
    ensures (z - RotationOffset(u, v)) % 64 == (z - F.Offset(u, v)) % 64
  {
    hide RotationOffset, F.Offset;
    TableIsWalk(u, v);
    SubtractModulo(z, F.Offset(u, v));
  }

  lemma SubtractModulo(z: nat, o: nat)
    ensures (z - o % 64) % 64 == (z - o) % 64
  {
  }

  lemma RhoPiBit(s: seq<int>, b: seq<int>, x: nat, y: nat, z: nat)
    requires Words(s) && |b| == 25 && x < 5 && y < 5 && z < 64
    requires RhoPiCell(s, b, x, y)
    ensures Word(b[x + 5 * y]) && F.At(StateOf(b), x, y, z) == F.At(F.Pi(F.Rho(StateOf(s))), x, y, z)
  {
    AtStateOf(b, x, y, z);
    RotatedLane(s, OriginX(x, y), x, z);
    F.PiAt(F.Rho(StateOf(s)), x, y, z);
  }

  /** The fourth loop computes pi after rho. */
  lemma RhoPiBits(s: seq<int>, b: seq<int>)
    requires Words(s) && |b| == 25
    requires forall x: nat, y: nat | x < 5 && y < 5 :: RhoPiCell(s, b, x, y)
    ensures Words(b) && StateOf(b) == F.Pi(F.Rho(StateOf(s)))
  {
    forall k | 0 <= k < 25 ensures Word(b[k]) { RhoPiBit(s, b, k % 5, k / 5, 0); }
    forall x, y, z | 0 <= x < 5 && 0 <= y < 5 && 0 <= z < 64
      ensures F.At(StateOf(b), x, y, z) == F.At(F.Pi(F.Rho(StateOf(s))), x, y, z)
    {
      RhoPiBit(s, b, x, y, z);
    }
    F.StateExtensionality(StateOf(b), F.Pi(F.Rho(StateOf(s))));
  }

  /** What the fifth loop stores in cell (x, y). */
  predicate ChiCell(b: seq<int>, t: seq<int>, x: nat, y: nat)
    requires |b| == 25 && |t| == 25 && x < 5 && y < 5
  {
    t[x + 5 * y] == And(Xor(b[x + 5 * y], And(Not(b[(x + 1) % 5 + 5 * y]), b[(x + 2) % 5 + 5 * y])), MASK_64)
  }

  lemma ChiLaneBit(v: int, p: int, q: int, z: nat)
    requires z < 64
    ensures Word(And(Xor(v, And(Not(p), q)), MASK_64))
    ensures Bit(And(Xor(v, And(Not(p), q)), MASK_64), z) == F.Xor(Bit(v, z), !Bit(p, z) && Bit(q, z))
  {
    NotBit(p, z);
    AndBit(Not(p), q, z);
    XorBit(v, And(Not(p), q), z);
    MaskedBit(Xor(v, And(Not(p), q)), z);
  }

  lemma ChiBit(b: seq<int>, t: seq<int>, x: nat, y: nat, z: nat)
    requires Words(b) && |t| == 25 && x < 5 && y < 5 && z < 64
    requires ChiCell(b, t, x, y)
    ensures Word(t[x + 5 * y]) && F.At(StateOf(t), x, y, z) == F.At(F.Chi(StateOf(b)), x, y, z)
  {
    AtStateOf(t, x, y, z);
    AtStateOf(b, x, y, z);
    AtStateOf(b, (x + 1) % 5, y, z);
    AtStateOf(b, (x + 2) % 5, y, z);
    F.ChiAt(StateOf(b), x, y, z);
    ChiLaneBit(b[x + 5 * y], b[(x + 1) % 5 + 5 * y], b[(x + 2) % 5 + 5 * y], z);
  }

  /** The fifth loop computes chi. */
  lemma ChiBits(b: seq<int>, t: seq<int>)
    requires Words(b) && |t| == 25
    requires forall x: nat, y: nat | x < 5 && y < 5 :: ChiCell(b, t, x, y)
    ensures Words(t) && StateOf(t) == F.Chi(StateOf(b))
  {
    forall k | 0 <= k < 25 ensures Word(t[k]) { ChiBit(b, t, k % 5, k / 5, 0); }
    forall x, y, z | 0 <= x < 5 && 0 <= y < 5 && 0 <= z < 64
      ensures F.At(StateOf(t), x, y, z) == F.At(F.Chi(StateOf(b)), x, y, z)
    {
      ChiBit(b, t, x, y, z);
    }
    F.StateExtensionality(StateOf(t), F.Chi(StateOf(b)));
  }

  lemma IotaBits(s: seq<int>, t: seq<int>, ir: nat)
    requires Words(s) && ir < 24 && t == s[0 := And(Xor(s[0], RoundConstant(ir)), MASK_64)]
    ensures Words(t) && StateOf(t) == F.Iota(StateOf(s), ir)
  {
    hide And, Xor, RoundConstant, Bit, F.RoundConstantBit;
    MaskedBit(Xor(s[0], RoundConstant(ir)), 0);
    forall x, y, z | 0 <= x < 5 && 0 <= y < 5 && 0 <= z < 64
      ensures F.At(StateOf(t), x, y, z) == F.At(F.Iota(StateOf(s), ir), x, y, z)
    {
      AtStateOf(t, x, y, z);
      AtStateOf(s, x, y, z);
      ConstantBit(ir, z);
      XorBit(s[0], RoundConstant(ir), z);
      MaskedBit(Xor(s[0], RoundConstant(ir)), z);
    }
    F.StateExtensionality(StateOf(t), F.Iota(StateOf(s), ir));
  }
}
