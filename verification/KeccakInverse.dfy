/** The permutation is a bijection on 25-lane states.

    Theta is inverted through its action on the column parities: with `S` a shift in x and `R` a
    rotation by one, that action is 1 + S + S^-1 R; squaring it doubles both shifts, so its 64th
    power is 1 + S + S^-1 and its 192nd power is the identity. */
module KeccakInverse {
  import opened F = Fips202
  import opened KeccakWords
  import BigInts

  // ----- Column parities

  type Sheet = c: seq<Lane> | |c| == 5 witness seq(5, _ => seq(64, _ => false))

  function Par(c: Sheet, x: int, z: int): bool {
    0 <= x < 5 && 0 <= z < 64 && c[x][z]
  }

  function BuildSheet(f: (int, int) -> bool): (c: Sheet)
    ensures forall x, z | 0 <= x < 5 && 0 <= z < 64 :: Par(c, x, z) == f(x, z)
  {
    seq(5, x requires 0 <= x < 5 => BuildLane(z => f(x, z)))
  }

  lemma SheetExtensionality(c: Sheet, d: Sheet)
    requires forall x, z | 0 <= x < 5 && 0 <= z < 64 :: Par(c, x, z) == Par(d, x, z)
    ensures c == d
  {
    forall x | 0 <= x < 5 ensures c[x] == d[x] {
      forall z | 0 <= z < 64 ensures c[x][z] == d[x][z] { assert Par(c, x, z) == Par(d, x, z); }
    }
  }

  function Parities(a: State): Sheet {
    BuildSheet((x, z) => Column(a, x, z))
  }

  /** What theta adds to a column, from the parities of its neighbours; shift `n` in x, rotation `n` in z. */
  function Neighbours(c: Sheet, n: nat, x: int, z: int): bool {
    Xor(Par(c, (x - n) % 5, z), Par(c, (x + n) % 5, (z - n) % 64))
  }

  /** 1 + S^n + S^-n R^n */
  function Spread(c: Sheet, n: nat): Sheet {
    BuildSheet((x, z) => Xor(Par(c, x, z), Neighbours(c, n, x, z)))
  }

  lemma SpreadAt(c: Sheet, n: nat, x: int, z: int)
    requires 0 <= x < 5 && 0 <= z < 64
    ensures Par(Spread(c, n), x, z) == Xor(Par(c, x, z), Neighbours(c, n, x, z))
  {
    hide Par, Neighbours;
  }

  lemma AroundFive(x: int, j: int, k: int)
    ensures ((x + j) % 5 + k) % 5 == (x + j + k) % 5
  {
  }

  lemma AroundLane(z: int, j: int, k: int)
    ensures ((z + j) % 64 + k) % 64 == (z + j + k) % 64
  {
  }

  lemma ShiftBack(x: int, n: int)
    requires 0 <= x < 5
    ensures ((x - n) % 5 + n) % 5 == x && ((x + n) % 5 - n) % 5 == x
  {
    AroundFive(x, -n, n); AroundFive(x, n, -n);
  }

  lemma ShiftTwice(x: int, z: int, n: int)
    ensures ((x - n) % 5 - n) % 5 == (x - 2 * n) % 5 && ((x + n) % 5 + n) % 5 == (x + 2 * n) % 5
    ensures ((z - n) % 64 - n) % 64 == (z - 2 * n) % 64
  {
    AroundFive(x, -n, -n); AroundFive(x, n, n);
    AroundLane(z, -n, -n);
  }

  lemma RotateBack(z: int, o: int)
    requires 0 <= z < 64
    ensures ((z - o) % 64 + o) % 64 == z && ((z + o) % 64 - o) % 64 == z
  {
    AroundLane(z, -o, o); AroundLane(z, o, -o);
  }

  /** In characteristic two, squaring doubles the shifts and drops the cross terms. */
  lemma SpreadSquared(c: Sheet, n: nat)
    ensures Spread(Spread(c, n), n) == Spread(c, 2 * n)
  {
    hide Par, Spread;
    forall x, z | 0 <= x < 5 && 0 <= z < 64
      ensures Par(Spread(Spread(c, n), n), x, z) == Par(Spread(c, 2 * n), x, z)
    {
      var left, right, below := (x - n) % 5, (x + n) % 5, (z - n) % 64;
      ShiftBack(x, n);
      ShiftTwice(x, z, n);
      SpreadAt(Spread(c, n), n, x, z);
      SpreadAt(c, n, x, z);
      SpreadAt(c, n, left, z);
      SpreadAt(c, n, right, below);
      SpreadAt(c, 2 * n, x, z);
    }
    SheetExtensionality(Spread(Spread(c, n), n), Spread(c, 2 * n));
  }

  /** The 64th and the 128th power of theta's action cancel, in either order. */
  lemma SpreadOrder(c: Sheet)
    ensures Spread(Spread(c, 128), 64) == c
    ensures Spread(Spread(c, 64), 128) == c
  {
    hide Par, Spread;
    forall x, z | 0 <= x < 5 && 0 <= z < 64
      ensures Par(Spread(Spread(c, 128), 64), x, z) == Par(c, x, z)
      ensures Par(Spread(Spread(c, 64), 128), x, z) == Par(c, x, z)
    {
      SpreadOrderAt(c, x, z);
      SpreadOrderAtReversed(c, x, z);
    }
    SheetExtensionality(Spread(Spread(c, 128), 64), c);
    SheetExtensionality(Spread(Spread(c, 64), 128), c);
  }

  lemma SpreadWhole(c: Sheet, x: int, z: int)
    requires 0 <= x < 5 && 0 <= z < 64
    ensures Par(Spread(c, 64), x, z) == Xor(Par(c, x, z), Xor(Par(c, (x + 1) % 5, z), Par(c, (x + 4) % 5, z)))
    ensures Par(Spread(c, 128), x, z) == Xor(Par(c, x, z), Xor(Par(c, (x + 2) % 5, z), Par(c, (x + 3) % 5, z)))
  {
    hide Par, Spread;
    SpreadAt(c, 64, x, z);
    SpreadAt(c, 128, x, z);
    assert (z - 64) % 64 == z && (z - 128) % 64 == z;
    assert (x - 64) % 5 == (x + 1) % 5 && (x + 64) % 5 == (x + 4) % 5;
    assert (x - 128) % 5 == (x + 2) % 5 && (x + 128) % 5 == (x + 3) % 5;
  }

  lemma SpreadOrderAt(c: Sheet, x: int, z: int)
    requires 0 <= x < 5 && 0 <= z < 64
    ensures Par(Spread(Spread(c, 128), 64), x, z) == Par(c, x, z)
  {
    hide Par, Spread;
    SpreadWhole(Spread(c, 128), x, z);
    SpreadWhole(c, x, z);
    SpreadWhole(c, (x + 1) % 5, z);
    SpreadWhole(c, (x + 4) % 5, z);
    AroundFive(x, 1, 2); AroundFive(x, 1, 3); AroundFive(x, 4, 2); AroundFive(x, 4, 3);
    assert (x + 6) % 5 == (x + 1) % 5 && (x + 7) % 5 == (x + 2) % 5;
  }

  lemma SpreadOrderAtReversed(c: Sheet, x: int, z: int)
    requires 0 <= x < 5 && 0 <= z < 64
    ensures Par(Spread(Spread(c, 64), 128), x, z) == Par(c, x, z)
  {
    hide Par, Spread;
    SpreadWhole(Spread(c, 64), x, z);
    SpreadWhole(c, x, z);
    SpreadWhole(c, (x + 2) % 5, z);
    SpreadWhole(c, (x + 3) % 5, z);
    AroundFive(x, 2, 1); AroundFive(x, 2, 4); AroundFive(x, 3, 1); AroundFive(x, 3, 4);
    assert (x + 6) % 5 == (x + 1) % 5 && (x + 7) % 5 == (x + 2) % 5;
  }

  /** The 191st power, inner factor first. */
  function Unspread(c: Sheet): Sheet {
    Spread(Spread(Spread(Spread(Spread(Spread(Spread(c, 128), 32), 16), 8), 4), 2), 1)
  }

  function UnspreadLeft(c: Sheet): Sheet {
    Spread(Spread(Spread(Spread(Spread(Spread(Spread(c, 1), 2), 4), 8), 16), 32), 128)
  }

  lemma SpreadUnspread(c: Sheet)
    ensures Spread(Unspread(c), 1) == c
  {
    hide Spread;
    var c7 := Spread(c, 128);
    var c5 := Spread(c7, 32);
    var c4 := Spread(c5, 16);
    var c3 := Spread(c4, 8);
    var c2 := Spread(c3, 4);
    var c1 := Spread(c2, 2);
    SpreadSquared(c1, 1);
    SpreadSquared(c2, 2);
    SpreadSquared(c3, 4);
    SpreadSquared(c4, 8);
    SpreadSquared(c5, 16);
    SpreadSquared(c7, 32);
    SpreadOrder(c);
  }

  lemma UnspreadLeftSpread(c: Sheet)
    ensures UnspreadLeft(Spread(c, 1)) == c
  {
    hide Spread;
    SpreadSquared(c, 1);
    SpreadSquared(c, 2);
    SpreadSquared(c, 4);
    SpreadSquared(c, 8);
    SpreadSquared(c, 16);
    SpreadSquared(c, 32);
    SpreadOrder(c);
  }

  lemma UnspreadSpread(c: Sheet)
    ensures Unspread(Spread(c, 1)) == c
  {
    hide Spread, Unspread, UnspreadLeft;
    var d := Spread(c, 1);
    SpreadUnspread(d);
    UnspreadLeftSpread(Unspread(d));
    UnspreadLeftSpread(c);
  }

  // ----- Theta

  function AddNeighbours(a: State, c: Sheet): State {
    Build((x, y, z) => Xor(At(a, x, y, z), Neighbours(c, 1, x, z)))
  }

  function InvTheta(a: State): State {
    AddNeighbours(a, Unspread(Parities(a)))
  }

  lemma AddNeighboursAt(a: State, c: Sheet, x: int, y: int, z: int)
    requires 0 <= x < 5 && 0 <= y < 5 && 0 <= z < 64
    ensures At(AddNeighbours(a, c), x, y, z) == Xor(At(a, x, y, z), Neighbours(c, 1, x, z))
  {
    hide At, Neighbours;
  }

  lemma ParitiesAt(a: State, x: int, z: int)
    requires 0 <= x < 5 && 0 <= z < 64
    ensures Par(Parities(a), x, z) == Column(a, x, z)
  {
    hide Par, Column;
  }

  lemma ThetaIsAddNeighbours(a: State)
    ensures Theta(a) == AddNeighbours(a, Parities(a))
  {
    hide At, Par, Column, Theta, AddNeighbours;
    forall x, y, z | 0 <= x < 5 && 0 <= y < 5 && 0 <= z < 64
      ensures At(Theta(a), x, y, z) == At(AddNeighbours(a, Parities(a)), x, y, z)
    {
      ThetaAt(a, x, y, z);
      AddNeighboursAt(a, Parities(a), x, y, z);
      ParitiesAt(a, (x - 1) % 5, z);
      ParitiesAt(a, (x + 1) % 5, (z - 1) % 64);
    }
    StateExtensionality(Theta(a), AddNeighbours(a, Parities(a)));
  }

  /** A column has five bits, so adding the same bit to all of them adds it to the parity. */
  lemma ColumnOfAdded(a: State, c: Sheet, x: int, z: int)
    requires 0 <= x < 5 && 0 <= z < 64
    ensures Column(AddNeighbours(a, c), x, z) == Xor(Column(a, x, z), Neighbours(c, 1, x, z))
  {
    hide At, Neighbours, AddNeighbours;
    AddNeighboursAt(a, c, x, 0, z);
    AddNeighboursAt(a, c, x, 1, z);
    AddNeighboursAt(a, c, x, 2, z);
    AddNeighboursAt(a, c, x, 3, z);
    AddNeighboursAt(a, c, x, 4, z);
  }

  lemma ParitiesOfAdded(a: State, c: Sheet)
    requires Parities(a) == c || Parities(a) == Spread(c, 1)
    ensures Parities(AddNeighbours(a, c)) == if Parities(a) == c then Spread(c, 1) else c
  {
    hide Par, Column, Neighbours, AddNeighbours, Parities, Spread;
    var b := AddNeighbours(a, c);
    var d := if Parities(a) == c then Spread(c, 1) else c;
    forall x, z | 0 <= x < 5 && 0 <= z < 64 ensures Par(Parities(b), x, z) == Par(d, x, z) {
      ParitiesAt(b, x, z);
      ParitiesAt(a, x, z);
      ColumnOfAdded(a, c, x, z);
      SpreadAt(c, 1, x, z);
    }
    SheetExtensionality(Parities(b), d);
  }

  lemma AddNeighboursTwice(a: State, c: Sheet)
    ensures AddNeighbours(AddNeighbours(a, c), c) == a
  {
    hide At, Neighbours, AddNeighbours;
    var b := AddNeighbours(AddNeighbours(a, c), c);
    forall x, y, z | 0 <= x < 5 && 0 <= y < 5 && 0 <= z < 64 ensures At(b, x, y, z) == At(a, x, y, z) {
      AddNeighboursAt(AddNeighbours(a, c), c, x, y, z);
      AddNeighboursAt(a, c, x, y, z);
    }
    StateExtensionality(b, a);
  }

  lemma ThetaInverse(a: State)
    ensures InvTheta(Theta(a)) == a && Theta(InvTheta(a)) == a
  {
    hide Theta, AddNeighbours, Parities, Spread, Unspread;
    var c := Parities(a);
    ThetaIsAddNeighbours(a);
    ParitiesOfAdded(a, c);
    UnspreadSpread(c);
    AddNeighboursTwice(a, c);
    var d := Unspread(c);
    SpreadUnspread(c);
    ParitiesOfAdded(a, d);
    ThetaIsAddNeighbours(InvTheta(a));
    AddNeighboursTwice(a, d);
  }

  // ----- Rho, pi, chi, iota

  function InvRho(a: State): State {
    Build((x, y, z) => At(a, x, y, (z + Offset(x, y)) % 64))
  }

  function InvPi(a: State): State {
    Build((x, y, z) => At(a, y, (2 * (x - y)) % 5, z))
  }

  function InvChiOf(a: State, x: int, y: int, z: int): bool {
    Xor(At(a, x, y, z), !At(a, (x + 1) % 5, y, z) &&
        Xor(At(a, (x + 2) % 5, y, z), !At(a, (x + 3) % 5, y, z) && At(a, (x + 4) % 5, y, z)))
  }

  function InvChi(a: State): State {
    Build((x, y, z) => InvChiOf(a, x, y, z))
  }

  lemma InvRhoAt(a: State, x: int, y: int, z: int)
    requires 0 <= x < 5 && 0 <= y < 5 && 0 <= z < 64
    ensures At(InvRho(a), x, y, z) == At(a, x, y, (z + Offset(x, y)) % 64)
  {
    hide At, Offset;
  }

  lemma InvPiAt(a: State, x: int, y: int, z: int)
    requires 0 <= x < 5 && 0 <= y < 5 && 0 <= z < 64
    ensures At(InvPi(a), x, y, z) == At(a, y, (2 * (x - y)) % 5, z)
  {
    hide At;
  }

  lemma InvChiAt(a: State, x: int, y: int, z: int)
    requires 0 <= x < 5 && 0 <= y < 5 && 0 <= z < 64
    ensures At(InvChi(a), x, y, z) == InvChiOf(a, x, y, z)
  {
    hide At, InvChiOf;
  }

  lemma RhoInverseAt(a: State, x: int, y: int, z: int, up: int, down: int)
    requires 0 <= x < 5 && 0 <= y < 5 && 0 <= z < 64
    requires up == (z + Offset(x, y)) % 64 && down == (z - Offset(x, y)) % 64
    requires (up - Offset(x, y)) % 64 == z && (down + Offset(x, y)) % 64 == z
    ensures At(InvRho(Rho(a)), x, y, z) == At(a, x, y, z) == At(Rho(InvRho(a)), x, y, z)
  {
    hide At, Rho, InvRho, Offset;
    InvRhoAt(Rho(a), x, y, z);
    RhoAt(a, x, y, up);
    RhoAt(InvRho(a), x, y, z);
    InvRhoAt(a, x, y, down);
  }

  lemma RhoInverse(a: State)
    ensures InvRho(Rho(a)) == a && Rho(InvRho(a)) == a
  {
    hide At, Rho, InvRho, Offset;
    forall x, y, z | 0 <= x < 5 && 0 <= y < 5 && 0 <= z < 64
      ensures At(InvRho(Rho(a)), x, y, z) == At(a, x, y, z) == At(Rho(InvRho(a)), x, y, z)
    {
      RotateBack(z, Offset(x, y));
      RhoInverseAt(a, x, y, z, (z + Offset(x, y)) % 64, (z - Offset(x, y)) % 64);
    }
    StateExtensionality(InvRho(Rho(a)), a);
    StateExtensionality(Rho(InvRho(a)), a);
  }

  lemma PiIndices(x: int, y: int)
    requires 0 <= x < 5 && 0 <= y < 5
    ensures (y + 3 * ((2 * (x - y)) % 5)) % 5 == x
    ensures (2 * ((x + 3 * y) % 5 - x)) % 5 == y
  {
    var q, r := (2 * (x - y)) / 5, (x + 3 * y) / 5;
    assert y + 3 * ((2 * (x - y)) % 5) == x + 5 * (x - y - 3 * q);
    FiveMore(x, x - y - 3 * q);
    assert 2 * ((x + 3 * y) % 5 - x) == y + 5 * (y - 2 * r);
    FiveMore(y, y - 2 * r);
  }

  lemma PiInverse(a: State)
    ensures InvPi(Pi(a)) == a && Pi(InvPi(a)) == a
  {
    hide At, Pi, InvPi;
    forall x, y, z | 0 <= x < 5 && 0 <= y < 5 && 0 <= z < 64
      ensures At(InvPi(Pi(a)), x, y, z) == At(a, x, y, z) == At(Pi(InvPi(a)), x, y, z)
    {
      PiIndices(x, y);
      InvPiAt(Pi(a), x, y, z);
      PiAt(a, y, (2 * (x - y)) % 5, z);
      PiAt(InvPi(a), x, y, z);
      InvPiAt(a, (x + 3 * y) % 5, x, z);
    }
    StateExtensionality(InvPi(Pi(a)), a);
    StateExtensionality(Pi(InvPi(a)), a);
  }

  /** The five bits of a row, from position x. */
  lemma RowIndices(x: int)
    requires 0 <= x < 5
    ensures ((x + 1) % 5 + 1) % 5 == (x + 2) % 5 && ((x + 1) % 5 + 2) % 5 == (x + 3) % 5
    ensures ((x + 2) % 5 + 1) % 5 == (x + 3) % 5 && ((x + 2) % 5 + 2) % 5 == (x + 4) % 5
    ensures ((x + 3) % 5 + 1) % 5 == (x + 4) % 5 && ((x + 3) % 5 + 2) % 5 == x
    ensures ((x + 4) % 5 + 1) % 5 == x && ((x + 4) % 5 + 2) % 5 == (x + 1) % 5
  {
  }

  lemma RowIndicesFar(x: int)
    requires 0 <= x < 5
    ensures ((x + 1) % 5 + 3) % 5 == (x + 4) % 5 && ((x + 1) % 5 + 4) % 5 == x
    ensures ((x + 2) % 5 + 3) % 5 == x && ((x + 2) % 5 + 4) % 5 == (x + 1) % 5
  {
  }

  lemma ChiInverseLeft(a: State, x: int, y: int, z: int)
    requires 0 <= x < 5 && 0 <= y < 5 && 0 <= z < 64
    ensures At(InvChi(Chi(a)), x, y, z) == At(a, x, y, z)
  {
    hide At, Chi, InvChi;
    RowIndices(x);
    InvChiAt(Chi(a), x, y, z);
    ChiAt(a, x, y, z);
    ChiAt(a, (x + 1) % 5, y, z);
    ChiAt(a, (x + 2) % 5, y, z);
    ChiAt(a, (x + 3) % 5, y, z);
    ChiAt(a, (x + 4) % 5, y, z);
  }

  lemma ChiInverseRight(a: State, x: int, y: int, z: int)
    requires 0 <= x < 5 && 0 <= y < 5 && 0 <= z < 64
    ensures At(Chi(InvChi(a)), x, y, z) == At(a, x, y, z)
  {
    hide At, Chi, InvChi;
    RowIndices(x);
    RowIndicesFar(x);
    ChiAt(InvChi(a), x, y, z);
    InvChiAt(a, x, y, z);
    InvChiAt(a, (x + 1) % 5, y, z);
    InvChiAt(a, (x + 2) % 5, y, z);
  }

  lemma ChiInverse(a: State)
    ensures InvChi(Chi(a)) == a && Chi(InvChi(a)) == a
  {
    hide At, Chi, InvChi;
    forall x, y, z | 0 <= x < 5 && 0 <= y < 5 && 0 <= z < 64
      ensures At(InvChi(Chi(a)), x, y, z) == At(a, x, y, z) == At(Chi(InvChi(a)), x, y, z)
    {
      ChiInverseLeft(a, x, y, z);
      ChiInverseRight(a, x, y, z);
    }
    StateExtensionality(InvChi(Chi(a)), a);
    StateExtensionality(Chi(InvChi(a)), a);
  }

  lemma IotaInverse(a: State, ir: nat)
    ensures Iota(Iota(a, ir), ir) == a
  {
    hide At, RoundConstantBit, Iota;
    forall x, y, z | 0 <= x < 5 && 0 <= y < 5 && 0 <= z < 64
      ensures At(Iota(Iota(a, ir), ir), x, y, z) == At(a, x, y, z)
    {
      IotaAt(Iota(a, ir), ir, x, y, z);
      IotaAt(a, ir, x, y, z);
    }
    StateExtensionality(Iota(Iota(a, ir), ir), a);
  }

  lemma IotaAt(a: State, ir: nat, x: int, y: int, z: int)
    requires 0 <= x < 5 && 0 <= y < 5 && 0 <= z < 64
    ensures At(Iota(a, ir), x, y, z) == Xor(At(a, x, y, z), x == 0 && y == 0 && RoundConstantBit(ir, z))
  {
    hide At, RoundConstantBit;
  }

  // ----- The permutation

  function InvRound(a: State, ir: nat): State {
    InvTheta(InvRho(InvPi(InvChi(Iota(a, ir)))))
  }

  function InvRounds(a: State, n: nat): State
    decreases n
  {
    if n == 0 then a else InvRounds(InvRound(a, n - 1), n - 1)
  }

  function InvKeccakP(a: State): State {
    InvRounds(a, 24)
  }

  lemma RoundInverse(a: State, ir: nat)
    ensures InvRound(Round(a, ir), ir) == a && Round(InvRound(a, ir), ir) == a
  {
    hide Theta, InvTheta, Rho, InvRho, Pi, InvPi, Chi, InvChi, Iota;
    var t := Theta(a);
    var r := Rho(t);
    var p := Pi(r);
    ThetaInverse(a);
    RhoInverse(t);
    PiInverse(r);
    ChiInverse(p);
    IotaInverse(Chi(p), ir);
    var i := Iota(a, ir);
    var c := InvChi(i);
    var q := InvPi(c);
    IotaInverse(a, ir);
    ChiInverse(i);
    PiInverse(c);
    RhoInverse(q);
    ThetaInverse(InvRho(q));
  }

  lemma {:induction false} RoundsInverse(a: State, n: nat)
    ensures InvRounds(Rounds(a, n), n) == a && Rounds(InvRounds(a, n), n) == a
    decreases n
  {
    hide Round, InvRound;
    if n > 0 {
      RoundInverse(Rounds(a, n - 1), n - 1);
      RoundsInverse(a, n - 1);
      RoundsInverse(InvRound(a, n - 1), n - 1);
      RoundInverse(a, n - 1);
    }
  }

  /** The permutation is a bijection on states, with an explicit two-sided inverse. */
  lemma KeccakPBijection(a: State)
    ensures InvKeccakP(KeccakP(a)) == a && KeccakP(InvKeccakP(a)) == a
  {
    hide Rounds, InvRounds;
    RoundsInverse(a, 24);
  }

  // ----- The cells of the program

  /** The cells whose bits are the given state. */
  function CellsOf(a: State): (s: seq<int>)
    ensures |s| == 25
  {
    seq(25, k requires 0 <= k < 25 => BigInts.FromBits(a[k]))
  }

  lemma CellsOfState(a: State)
    ensures Words(CellsOf(a)) && StateOf(CellsOf(a)) == a
  {
    hide BigInts.FromBits, BigInts.Bit;
    var s := CellsOf(a);
    Mask64();
    forall k | 0 <= k < 25 ensures Word(s[k]) && StateOf(s)[k] == a[k] {
      BigInts.FromBitsRange(a[k]);
      assert StateOf(s)[k] == LaneOf(s[k]);
      forall z: nat | z < 64 ensures LaneOf(s[k])[z] == a[k][z] { BigInts.FromBitsBit(a[k], z); }
    }
  }

  /** What `keccakF` turns 25 cells into; see `Keccak.KeccakF`. */
  predicate Permuted(s: seq<int>, t: seq<int>) {
    Words(s) && Words(t) && StateOf(t) == KeccakP(StateOf(s))
  }

  /** On cells below 2^64, `keccakF` is a bijection: every result has exactly one argument. */
  lemma KeccakFBijection(t: seq<int>)
    requires Words(t)
    ensures exists s :: Permuted(s, t)
    ensures forall s, s' | Permuted(s, t) && Permuted(s', t) :: s == s'
  {
    hide KeccakP, InvKeccakP, StateOf, CellsOf, Word;
    var a := InvKeccakP(StateOf(t));
    CellsOfState(a);
    KeccakPBijection(StateOf(t));
    assert Permuted(CellsOf(a), t);
    forall s, s' | Permuted(s, t) && Permuted(s', t) ensures s == s' {
      KeccakPBijection(StateOf(s));
      KeccakPBijection(StateOf(s'));
      StateOfInjective(s, s');
    }
  }
}
