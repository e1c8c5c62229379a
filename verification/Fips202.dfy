/** The Keccak permutation and sponge of FIPS 202, stated on bits as the standard states them.

    Nothing here is taken from the program: the rotation offsets come from the walk of section
    3.2.2, the round constants from the feedback register of section 3.2.5, and the padding from
    section 5.1.  `Keccak` proves that the program's tables, loops and integer arithmetic compute
    these functions; `KeccakInverse` proves that the permutation is a bijection. */
module Fips202 {

  /** 64 bits along the z axis, least significant first. */
  type Lane = s: seq<bool> | |s| == 64 witness seq(64, _ => false)

  /** The state array A[x, y, z] of section 3.1, lane (x, y) at index x + 5y. */
  type State = a: seq<Lane> | |a| == 25 witness seq(25, _ => seq(64, _ => false))

  function Xor(p: bool, q: bool): bool { p != q }

  /** A[x, y, z] for 0 <= x < 5, 0 <= y < 5, 0 <= z < 64. */
  function At(a: State, x: int, y: int, z: int): bool {
    0 <= x < 5 && 0 <= y < 5 && 0 <= z < 64 && a[x + 5 * y][z]
  }

  function Build(f: (int, int, int) -> bool): (a: State)
    ensures forall x, y, z | 0 <= x < 5 && 0 <= y < 5 && 0 <= z < 64 :: At(a, x, y, z) == f(x, y, z)
  {
    seq(25, i requires 0 <= i < 25 => BuildLane(z => f(i % 5, i / 5, z)))
  }

  function BuildLane(f: int -> bool): (l: Lane)
    ensures forall z | 0 <= z < 64 :: l[z] == f(z)
  {
    seq(64, z requires 0 <= z < 64 => f(z))
  }

  /** Two states that agree at every coordinate are the same state. */
  lemma StateExtensionality(a: State, b: State)
    requires forall x, y, z | 0 <= x < 5 && 0 <= y < 5 && 0 <= z < 64 :: At(a, x, y, z) == At(b, x, y, z)
    ensures a == b
  {
    forall i | 0 <= i < 25 ensures a[i] == b[i] {
      forall z | 0 <= z < 64 ensures a[i][z] == b[i][z] {
        assert At(a, i % 5, i / 5, z) == At(b, i % 5, i / 5, z);
      }
    }
  }

  // ----- Section 3.2.1, theta

  /** The parity C[x, z] of a column. */
  function Column(a: State, x: int, z: int): bool {
    Xor(Xor(Xor(Xor(At(a, x, 0, z), At(a, x, 1, z)), At(a, x, 2, z)), At(a, x, 3, z)), At(a, x, 4, z))
  }

  function ThetaEffect(a: State, x: int, z: int): bool {
    Xor(Column(a, (x - 1) % 5, z), Column(a, (x + 1) % 5, (z - 1) % 64))
  }

  function Theta(a: State): State {
    Build((x, y, z) => Xor(At(a, x, y, z), ThetaEffect(a, x, z)))
  }

  lemma ThetaAt(a: State, x: int, y: int, z: int)
    requires 0 <= x < 5 && 0 <= y < 5 && 0 <= z < 64
    ensures At(Theta(a), x, y, z) == Xor(At(a, x, y, z), ThetaEffect(a, x, z))
  {
    hide ThetaEffect, At;
  }

  // ----- Section 3.2.2, rho

  /** The coordinates visited by the walk, starting at (1, 0). */
  function Walk(t: nat): (p: (int, int))
    ensures 0 <= p.0 < 5 && 0 <= p.1 < 5
  {
    if t == 0 then (1, 0) else var (x, y) := Walk(t - 1); (y, (2 * x + 3 * y) % 5)
  }

  function OffsetFrom(x: int, y: int, t: nat): nat
    decreases 24 - t
  {
    if t >= 24 then 0
    else if Walk(t) == (x, y) then (t + 1) * (t + 2) / 2
    else OffsetFrom(x, y, t + 1)
  }

  /** How far lane (x, y) is rotated; the origin is not on the walk and stays. */
  function Offset(x: int, y: int): nat {
    OffsetFrom(x, y, 0)
  }

  function Rho(a: State): State {
    Build((x, y, z) => At(a, x, y, (z - Offset(x, y)) % 64))
  }

  lemma RhoAt(a: State, x: int, y: int, z: int)
    requires 0 <= x < 5 && 0 <= y < 5 && 0 <= z < 64
    ensures At(Rho(a), x, y, z) == At(a, x, y, (z - Offset(x, y)) % 64)
  {
    hide At, Offset;
  }

  // ----- Section 3.2.3, pi

  function Pi(a: State): State {
    Build((x, y, z) => At(a, (x + 3 * y) % 5, x, z))
  }

  lemma PiAt(a: State, x: int, y: int, z: int)
    requires 0 <= x < 5 && 0 <= y < 5 && 0 <= z < 64
    ensures At(Pi(a), x, y, z) == At(a, (x + 3 * y) % 5, x, z)
  {
    hide At;
  }

  // ----- Section 3.2.4, chi

  /** A'[x, y, z] from the row it is in. */
  function ChiOf(a: State, x: int, y: int, z: int): bool {
    Xor(At(a, x, y, z), !At(a, (x + 1) % 5, y, z) && At(a, (x + 2) % 5, y, z))
  }

  function Chi(a: State): State {
    Build((x, y, z) => ChiOf(a, x, y, z))
  }

  lemma ChiAt(a: State, x: int, y: int, z: int)
    requires 0 <= x < 5 && 0 <= y < 5 && 0 <= z < 64
    ensures At(Chi(a), x, y, z) == ChiOf(a, x, y, z)
  {
    hide At, ChiOf;
  }

  // ----- Section 3.2.5, iota

  /** The shift register R[0..7] of algorithm 5. */
  datatype Register = Register(r0: bool, r1: bool, r2: bool, r3: bool, r4: bool, r5: bool, r6: bool, r7: bool)

  function Shifted(r: Register): Register {
    Register(r.r7, r.r0, r.r1, r.r2, Xor(r.r3, r.r7), Xor(r.r4, r.r7), Xor(r.r5, r.r7), r.r6)
  }

  function RegisterAfter(t: nat): Register {
    if t == 0 then Register(true, false, false, false, false, false, false, false) else Shifted(RegisterAfter(t - 1))
  }

  function RoundBit(t: nat): bool {
    RegisterAfter(t % 255).r0
  }

  /** RC[z] of round ir: bit 2^j - 1 is rc(j + 7 ir), every other bit is zero. */
  function RoundConstantBit(ir: nat, z: int): bool {
    (z == 0 && RoundBit(7 * ir)) || (z == 1 && RoundBit(7 * ir + 1)) || (z == 3 && RoundBit(7 * ir + 2)) ||
    (z == 7 && RoundBit(7 * ir + 3)) || (z == 15 && RoundBit(7 * ir + 4)) || (z == 31 && RoundBit(7 * ir + 5)) ||
    (z == 63 && RoundBit(7 * ir + 6))
  }

  function Iota(a: State, ir: nat): State {
    Build((x, y, z) => Xor(At(a, x, y, z), x == 0 && y == 0 && RoundConstantBit(ir, z)))
  }

  // ----- Section 3.3, the permutation

  function Round(a: State, ir: nat): State {
    Iota(Chi(Pi(Rho(Theta(a)))), ir)
  }

  /** The first `n` rounds. */
  function Rounds(a: State, n: nat): State {
    if n == 0 then a else Round(Rounds(a, n - 1), n - 1)
  }

  function KeccakP(a: State): State {
    Rounds(a, 24)
  }

  // ----- Sections 4 and 5, the sponge with rate 1088 and capacity 512

  function ZeroState(): State { Build((x, y, z) => false) }

  function Zeros(n: nat): seq<bool> {
    seq(n, _ => false)
  }

  /** pad10*1(1088, m) of section 5.1. */
  function Pad(m: nat): (s: seq<bool>)
    ensures (m + |s|) % 1088 == 0
  {
    [true] + Zeros((-(m as int) - 2) % 1088) + [true]
  }

  function BlockBit(block: seq<bool>, p: int): bool {
    0 <= p < |block| && block[p]
  }

  /** A block of at most 1600 bits, extended by zeros, exclusive-ored into the state string. */
  function XorBlock(a: State, block: seq<bool>): State {
    Build((x, y, z) => Xor(At(a, x, y, z), BlockBit(block, 64 * (x + 5 * y) + z)))
  }

  function Absorb(a: State, blocks: seq<bool>): State
    requires |blocks| % 1088 == 0
    decreases |blocks|
  {
    if blocks == [] then a else Absorb(KeccakP(XorBlock(a, blocks[..1088])), blocks[1088..])
  }

  /** The state string S of section 3.1.3. */
  function StateString(a: State): (s: seq<bool>)
    ensures |s| == 1600
  {
    seq(1600, p requires 0 <= p < 1600 => a[p / 64][p % 64])
  }

  /** SPONGE[KECCAK-p[1600, 24], pad10*1, 1088](message, 256): one squeeze suffices, 256 <= 1088. */
  function Keccak256Bits(message: seq<bool>): (digest: seq<bool>)
    ensures |digest| == 256
  {
    StateString(Absorb(ZeroState(), message + Pad(|message|)))[..256]
  }
}
