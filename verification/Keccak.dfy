/** The program's Keccak-256: in-place loops over a 25-cell array, proved against `Fips202`. */
module Keccak {
  import opened BigInts
  import opened KeccakWords
  import F = Fips202

  // ----- Loops over x and y that overwrite every cell

  /** Cell k has been overwritten once the loops stand at (x, y). */
  predicate Visited(k: nat, x: nat, y: nat) {
    k % 5 < x || (k % 5 == x && k / 5 < y)
  }

  /** `t` holds `w` in the cells already visited and still `s` in the others. */
  predicate Mixed(s: seq<int>, w: seq<int>, t: seq<int>, x: nat, y: nat) {
    |s| == |w| == |t| == 25 && forall k: nat | k < 25 :: t[k] == if Visited(k, x, y) then w[k] else s[k]
  }

  lemma MixedStep(s: seq<int>, w: seq<int>, t: seq<int>, x: nat, y: nat)
    requires Mixed(s, w, t, x, y) && x < 5 && y < 5
    ensures t[x + 5 * y] == s[x + 5 * y]
    ensures Mixed(s, w, t[x + 5 * y := w[x + 5 * y]], x, y + 1)
  {
    assert !Visited(x + 5 * y, x, y);
  }

  lemma MixedRow(s: seq<int>, w: seq<int>, t: seq<int>, x: nat)
    requires Mixed(s, w, t, x, 5)
    ensures Mixed(s, w, t, x + 1, 0)
  {
  }

  lemma MixedDone(s: seq<int>, w: seq<int>, t: seq<int>)
    requires Mixed(s, w, t, 5, 0)
    ensures t == w
  {
  }

  lemma MixedStart(s: seq<int>, w: seq<int>)
    requires |s| == |w| == 25
    ensures Mixed(s, w, s, 0, 0)
  {
  }

  // ----- Theta

  function ThetaWords(s: seq<int>): (w: seq<int>)
    requires |s| == 25
    ensures |w| == 25
  {
    seq(25, k requires 0 <= k < 25 => And(Xor(s[k], EffectWord(s, k % 5)), MASK_64))
  }

  lemma ThetaWordsCell(s: seq<int>, x: nat, y: nat)
    requires |s| == 25 && x < 5 && y < 5
    ensures ThetaCell(s, ThetaWords(s), x, y)
    ensures ThetaWords(s)[x + 5 * y] == And(Xor(s[x + 5 * y], EffectWord(s, x)), MASK_64)
  {
    hide And, Xor, EffectWord;
    FiveMore(x, y);
  }

  method ColumnParities(state: array<int>) returns (c: array<int>)
    requires state.Length == 25
    ensures fresh(c) && c.Length == 5 && forall x: nat | x < 5 :: c[x] == ParityWord(state[..], x)
  {
    c := new int[5](_ => 0);
    for x := 0 to 5
      invariant forall i: nat | i < x :: c[i] == ParityWord(state[..], i)
    {
      c[x] := Xor(Xor(Xor(Xor(state[x], state[x + 5]), state[x + 10]), state[x + 15]), state[x + 20]);
    }
  }

  method Effects(c: array<int>, ghost s: seq<int>) returns (d: array<int>)
    requires |s| == 25 && c.Length == 5 && forall x: nat | x < 5 :: c[x] == ParityWord(s, x)
    ensures fresh(d) && d.Length == 5 && forall x: nat | x < 5 :: d[x] == EffectWord(s, x)
  {
    hide ParityWord, Rot;
    d := new int[5](_ => 0);
    for x := 0 to 5
      invariant forall i: nat | i < x :: d[i] == EffectWord(s, i)
    {
      d[x] := Xor(c[(x + 4) % 5], Rot(c[(x + 1) % 5], 1));
    }
  }

  method ThetaStep(state: array<int>)
    requires state.Length == 25 && Words(state[..])
    modifies state
    ensures Words(state[..]) && StateOf(state[..]) == F.Theta(StateOf(old(state[..])))
  {
    hide *;
    ghost var s := state[..];
    ghost var w := ThetaWords(s);
    var c := ColumnParities(state);
    var d := Effects(c, s);
    MixedStart(s, w);
    for x := 0 to 5
      invariant Mixed(s, w, state[..], x, 0)
      invariant forall i: nat | i < 5 :: d[i] == EffectWord(s, i)
    {
      for y := 0 to 5
        invariant Mixed(s, w, state[..], x, y)
        invariant forall i: nat | i < 5 :: d[i] == EffectWord(s, i)
      {
        ghost var t := state[..];
        MixedStep(s, w, t, x, y);
        ThetaWordsCell(s, x, y);
        state[x + 5 * y] := And(Xor(state[x + 5 * y], d[x]), MASK_64);
        assert state[..] == t[x + 5 * y := w[x + 5 * y]];
      }
      MixedRow(s, w, state[..], x);
    }
    MixedDone(s, w, state[..]);
    forall x: nat, y: nat | x < 5 && y < 5 ensures ThetaCell(s, w, x, y) { ThetaWordsCell(s, x, y); }
    ThetaBits(s, w);
  }

  // ----- Rho and pi

  function RhoPiWords(s: seq<int>): (w: seq<int>)
    requires |s| == 25
    ensures |w| == 25
  {
    seq(25, k requires 0 <= k < 25 => Rot(s[OriginX(k % 5, k / 5) + 5 * (k % 5)], RotationOffset(OriginX(k % 5, k / 5), k % 5)))
  }

  lemma RhoPiWordsCell(s: seq<int>, x: nat, y: nat)
    requires |s| == 25 && x < 5 && y < 5
    ensures RhoPiCell(s, RhoPiWords(s), x, y)
  {
    hide Rot, RotationOffset, OriginX;
    FiveMore(x, y);
  }

  lemma RhoPiWordsTarget(s: seq<int>, x: nat, y: nat)
    requires |s| == 25 && x < 5 && y < 5
    ensures RhoPiWords(s)[Target(x, y)] == Rot(s[x + 5 * y], RotationOffset(x, y))
  {
    hide Rot, RotationOffset, OriginX, Target;
    TargetBijection(x, y);
  }

  /** The cell of `b` that source lane number n = 5x + y goes to has been written for every n before `n`. */
  predicate Scattered(w: seq<int>, b: seq<int>, n: nat) {
    |w| == |b| == 25 && forall x: nat, y: nat | x < 5 && y < 5 && 5 * x + y < n :: b[Target(x, y)] == w[Target(x, y)]
  }

  lemma ScatteredStep(w: seq<int>, b: seq<int>, x: nat, y: nat)
    requires x < 5 && y < 5 && Scattered(w, b, 5 * x + y)
    ensures Scattered(w, b[Target(x, y) := w[Target(x, y)]], 5 * x + y + 1)
  {
    hide Target;
  }

  lemma ScatteredDone(w: seq<int>, b: seq<int>)
    requires Scattered(w, b, 25)
    ensures b == w
  {
    hide Target, OriginX;
    forall k: nat | k < 25 ensures b[k] == w[k] {
      TargetBijection(k % 5, k / 5);
      assert k == Target(OriginX(k % 5, k / 5), k % 5);
    }
  }

  method RhoPiStep(state: array<int>) returns (b: array<int>)
    requires state.Length == 25 && Words(state[..])
    ensures fresh(b) && b.Length == 25
    ensures Words(b[..]) && StateOf(b[..]) == F.Pi(F.Rho(StateOf(state[..])))
  {
    hide *;
    ghost var s := state[..];
    ghost var w := RhoPiWords(s);
    b := new int[25](_ => 0);
    ScatteredStart(w, b[..]);
    for x := 0 to 5
      invariant Scattered(w, b[..], 5 * x)
    {
      for y := 0 to 5
        invariant Scattered(w, b[..], 5 * x + y)
      {
        ghost var t := b[..];
        ScatteredStep(w, t, x, y);
        RhoPiWordsTarget(s, x, y);
        TargetIs(x, y);
        b[y + 5 * ((2 * x + 3 * y) % 5)] := Rot(state[x + 5 * y], RotationOffset(x, y));
        assert b[..] == t[Target(x, y) := w[Target(x, y)]];
      }
    }
    ScatteredDone(w, b[..]);
    forall x: nat, y: nat | x < 5 && y < 5 ensures RhoPiCell(s, w, x, y) { RhoPiWordsCell(s, x, y); }
    RhoPiBits(s, w);
  }

  lemma ScatteredStart(w: seq<int>, b: seq<int>)
    requires |w| == |b| == 25
    ensures Scattered(w, b, 0)
  {
  }

  lemma TargetIs(x: nat, y: nat)
    requires x < 5 && y < 5
    ensures Target(x, y) == y + 5 * ((2 * x + 3 * y) % 5)
  {
  }

  // ----- Chi and iota

  function ChiWord(b: seq<int>, x: nat, y: nat): int
    requires |b| == 25 && x < 5 && y < 5
  {
    And(Xor(b[x + 5 * y], And(Not(b[(x + 1) % 5 + 5 * y]), b[(x + 2) % 5 + 5 * y])), MASK_64)
  }

  function ChiWords(b: seq<int>): (w: seq<int>)
    requires |b| == 25
    ensures |w| == 25
  {
    seq(25, k requires 0 <= k < 25 => ChiWord(b, k % 5, k / 5))
  }

  lemma ChiWordsAt(b: seq<int>, x: nat, y: nat)
    requires |b| == 25 && x < 5 && y < 5
    ensures ChiWords(b)[x + 5 * y] == ChiWord(b, x, y)
  {
    hide ChiWord;
    FiveMore(x, y);
  }

  lemma ChiWordsCell(b: seq<int>, x: nat, y: nat)
    requires |b| == 25 && x < 5 && y < 5
    ensures ChiCell(b, ChiWords(b), x, y)
    ensures ChiWords(b)[x + 5 * y] ==
            And(Xor(b[x + 5 * y], And(Not(b[(x + 1) % 5 + 5 * y]), b[(x + 2) % 5 + 5 * y])), MASK_64)
  {
    hide And, Xor, Not, ChiWords;
    ChiWordsAt(b, x, y);
  }

  method ChiStep(state: array<int>, b: array<int>)
    requires state.Length == 25 && b.Length == 25 && state != b && Words(b[..])
    modifies state
    ensures Words(state[..]) && StateOf(state[..]) == F.Chi(StateOf(b[..]))
  {
    hide *;
    ghost var s := state[..];
    ghost var w := ChiWords(b[..]);
    MixedStart(s, w);
    for x := 0 to 5
      invariant Mixed(s, w, state[..], x, 0)
    {
      for y := 0 to 5
        invariant Mixed(s, w, state[..], x, y)
      {
        ghost var t := state[..];
        MixedStep(s, w, t, x, y);
        ChiWordsCell(b[..], x, y);
        state[x + 5 * y] := And(Xor(b[x + 5 * y], And(Not(b[(x + 1) % 5 + 5 * y]), b[(x + 2) % 5 + 5 * y])), MASK_64);
        assert state[..] == t[x + 5 * y := w[x + 5 * y]];
      }
      MixedRow(s, w, state[..], x);
    }
    MixedDone(s, w, state[..]);
    forall x: nat, y: nat | x < 5 && y < 5 ensures ChiCell(b[..], w, x, y) { ChiWordsCell(b[..], x, y); }
    ChiBits(b[..], w);
  }

  /** One turn of the outer loop is one round of the standard. */
  method RoundStep(state: array<int>, ir: nat)
    requires state.Length == 25 && Words(state[..]) && ir < 24
    modifies state
    ensures Words(state[..]) && StateOf(state[..]) == F.Round(StateOf(old(state[..])), ir)
  {
    hide F.Theta, F.Rho, F.Pi, F.Chi, F.Iota, And, Xor, RoundConstant, StateOf;
    ThetaStep(state);
    var b := RhoPiStep(state);
    ChiStep(state, b);
    ghost var s := state[..];
    state[0] := And(Xor(state[0], RoundConstant(ir)), MASK_64);
    assert state[..] == s[0 := And(Xor(s[0], RoundConstant(ir)), MASK_64)];
    IotaBits(s, state[..], ir);
  }

  /** The permutation, in place. */
  method KeccakF(state: array<int>)
    requires state.Length == 25 && Words(state[..])
    modifies state
    ensures Words(state[..]) && StateOf(state[..]) == F.KeccakP(StateOf(old(state[..])))
  {
    hide F.Round, StateOf, Words;
    ghost var a := StateOf(state[..]);
    for ir := 0 to 24
      invariant Words(state[..]) && StateOf(state[..]) == F.Rounds(a, ir)
    {
      RoundStep(state, ir);
    }
  }
}
