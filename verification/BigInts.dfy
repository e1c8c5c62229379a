/** JavaScript's BigInt operators `&`, `|`, `^`, `~`, `<<` and `>>`: unbounded integers read as
    infinite two's complement bit strings, least significant bit first. */
module BigInts {

  function Bit(n: int, i: nat): bool
    decreases i
  {
    if i == 0 then n % 2 == 1 else Bit(n / 2, i - 1)
  }

  function Size(n: int): nat {
    if n >= 0 then n else -n - 1
  }

  function Bitwise(op: (bool, bool) -> bool, a: int, b: int): int
    decreases Size(a) + Size(b)
  {
    if -1 <= a <= 0 && -1 <= b <= 0 then
      if op(a < 0, b < 0) then -1 else 0
    else
      2 * Bitwise(op, a / 2, b / 2) + if op(a % 2 == 1, b % 2 == 1) then 1 else 0
  }

  function And(a: int, b: int): int { Bitwise((p, q) => p && q, a, b) }

  function Or(a: int, b: int): int { Bitwise((p, q) => p || q, a, b) }

  function Xor(a: int, b: int): int { Bitwise((p, q) => p != q, a, b) }

  function Not(a: int): int { -a - 1 }

  function Shl(a: int, n: nat): int {
    if n == 0 then a else 2 * Shl(a, n - 1)
  }

  function Shr(a: int, n: nat): int
    decreases n
  {
    if n == 0 then a else Shr(a / 2, n - 1)
  }

  function Pow2(k: nat): nat
    ensures Pow2(k) > 0
  {
    if k == 0 then 1 else 2 * Pow2(k - 1)
  }

  lemma {:induction false} Pow2Sum(j: nat, k: nat)
    ensures Pow2(j + k) == Pow2(j) * Pow2(k)
  {
    if j > 0 { Pow2Sum(j - 1, k); }
  }

  // ----- What each operator does to every bit

  lemma {:induction false} SignBit(n: int, i: nat)
    requires -1 <= n <= 0
    ensures Bit(n, i) == (n < 0)
    decreases i
  {
    if i > 0 { assert n / 2 == n; SignBit(n, i - 1); }
  }

  lemma {:induction false} BitwiseBit(op: (bool, bool) -> bool, a: int, b: int, i: nat)
    ensures Bit(Bitwise(op, a, b), i) == op(Bit(a, i), Bit(b, i))
    decreases i
  {
    if -1 <= a <= 0 && -1 <= b <= 0 {
      SignBit(a, i);
      SignBit(b, i);
      SignBit(Bitwise(op, a, b), i);
    } else if i > 0 {
      BitwiseBit(op, a / 2, b / 2, i - 1);
      assert Bitwise(op, a, b) / 2 == Bitwise(op, a / 2, b / 2);
    }
  }

  lemma AndBit(a: int, b: int, i: nat)
    ensures Bit(And(a, b), i) == (Bit(a, i) && Bit(b, i))
  {
    BitwiseBit((p, q) => p && q, a, b, i);
  }

  lemma OrBit(a: int, b: int, i: nat)
    ensures Bit(Or(a, b), i) == (Bit(a, i) || Bit(b, i))
  {
    BitwiseBit((p, q) => p || q, a, b, i);
  }

  lemma XorBit(a: int, b: int, i: nat)
    ensures Bit(Xor(a, b), i) == (Bit(a, i) != Bit(b, i))
  {
    BitwiseBit((p, q) => p != q, a, b, i);
  }

  lemma {:induction false} NotBit(a: int, i: nat)
    ensures Bit(Not(a), i) == !Bit(a, i)
    decreases i
  {
    if i > 0 {
      assert Not(a) / 2 == Not(a / 2);
      NotBit(a / 2, i - 1);
    }
  }

  lemma {:induction false} ShlBit(a: int, n: nat, i: nat)
    ensures Bit(Shl(a, n), i) == (i >= n && Bit(a, i - n))
    decreases n
  {
    if n > 0 && i > 0 { ShlBit(a, n - 1, i - 1); }
  }

  lemma {:induction false} ShrBit(a: int, n: nat, i: nat)
    ensures Bit(Shr(a, n), i) == Bit(a, i + n)
    decreases n
  {
    if n > 0 { ShrBit(a / 2, n - 1, i); }
  }

  // ----- Ranges

  lemma {:induction false} HighBitsClear(v: int, k: nat, i: nat)
    requires 0 <= v < Pow2(k) && i >= k
    ensures !Bit(v, i)
    decreases i
  {
    if k == 0 { SignBit(v, i); } else { HighBitsClear(v / 2, k - 1, i - 1); }
  }

  /** A word is determined by its low bits. */
  lemma {:induction false} WordExtensionality(v: int, w: int, k: nat)
    requires 0 <= v < Pow2(k) && 0 <= w < Pow2(k)
    requires forall i: nat | i < k :: Bit(v, i) == Bit(w, i)
    ensures v == w
  {
    if k > 0 {
      forall i: nat | i < k - 1 ensures Bit(v / 2, i) == Bit(w / 2, i) {
        assert Bit(v, i + 1) == Bit(w, i + 1);
      }
      WordExtensionality(v / 2, w / 2, k - 1);
      assert Bit(v, 0) == Bit(w, 0);
    }
  }

  lemma {:induction false} AndRange(a: int, b: int)
    requires b >= 0
    ensures 0 <= And(a, b) <= b
    decreases Size(a) + Size(b)
  {
    if !(-1 <= a <= 0 && -1 <= b <= 0) { AndRange(a / 2, b / 2); }
  }

  lemma {:induction false} XorRange(a: int, b: int, k: nat)
    requires 0 <= a < Pow2(k) && 0 <= b < Pow2(k)
    ensures 0 <= Xor(a, b) < Pow2(k)
  {
    if k > 0 && !(a == 0 && b == 0) { XorRange(a / 2, b / 2, k - 1); }
  }

  lemma {:induction false} ShlRange(a: int, n: nat, k: nat)
    requires 0 <= a < Pow2(k)
    ensures 0 <= Shl(a, n) < Pow2(k + n)
  {
    if n > 0 { ShlRange(a, n - 1, k); }
  }

  lemma {:induction false} MaskBit(k: nat, i: nat)
    ensures Bit(Pow2(k) - 1, i) == (i < k)
    decreases k
  {
    if k == 0 { SignBit(0, i); }
    else if i > 0 { assert (Pow2(k) - 1) / 2 == Pow2(k - 1) - 1; MaskBit(k - 1, i - 1); }
  }

  // ----- Integers from bits

  function FromBits(bits: seq<bool>): nat {
    if bits == [] then 0 else (if bits[0] then 1 else 0) + 2 * FromBits(bits[1..])
  }

  lemma {:induction false} FromBitsRange(bits: seq<bool>)
    ensures FromBits(bits) < Pow2(|bits|)
  {
    if bits != [] { FromBitsRange(bits[1..]); }
  }

  lemma {:induction false} FromBitsBit(bits: seq<bool>, i: nat)
    ensures Bit(FromBits(bits), i) == (i < |bits| && bits[i])
    decreases i
  {
    if bits == [] { SignBit(0, i); }
    else if i > 0 {
      assert FromBits(bits) / 2 == FromBits(bits[1..]);
      FromBitsBit(bits[1..], i - 1);
    }
  }

  /** The low `k` bits and the rest of a number. */
  lemma {:induction false} BitOfSum(low: nat, high: int, k: nat, i: nat)
    requires low < Pow2(k)
    ensures Bit(low + Pow2(k) * high, i) == if i < k then Bit(low, i) else Bit(high, i - k)
    decreases k
  {
    if k > 0 {
      var n := low + Pow2(k) * high;
      assert Pow2(k) * high == 2 * (Pow2(k - 1) * high);
      assert n / 2 == low / 2 + Pow2(k - 1) * high;
      if i > 0 { BitOfSum(low / 2, high, k - 1, i - 1); }
    }
  }
}
