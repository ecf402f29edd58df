/** The integer arithmetic behind `i ^ (1 << j)` and the number of differing bits. */
module Bits {
  import opened Arithmetic

  function Pow2(j: nat): (p: nat)
    ensures p >= 1
  {
    if j == 0 then 1 else 2 * Pow2(j - 1)
  }

  function Xor(a: nat, b: nat): nat
    decreases a + b
  {
    if a == 0 && b == 0 then 0 else 2 * Xor(a / 2, b / 2) + (a + b) % 2
  }

  function PopCount(n: nat): nat {
    if n == 0 then 0 else n % 2 + PopCount(n / 2)
  }

  /** In how many bits two indices differ. */
  function Differing(a: nat, b: nat): nat { PopCount(Xor(a, b)) }

  function Flip(i: nat, j: nat): nat { Xor(i, Pow2(j)) }

  /** The exponent `math.ceil(math.log2(n))`, exact. */
  function CeilLog2(n: nat): (d: nat)
    requires n >= 1
    ensures n <= Pow2(d) && (d > 0 ==> Pow2(d - 1) < n)
  {
    if n == 1 then 0 else 1 + CeilLog2((n + 1) / 2)
  }

  lemma {:induction false} XorZero(a: nat)
    ensures Xor(a, 0) == a
  {
    if a > 0 { XorZero(a / 2); }
  }

  /** A flip changes the last bit, or it is a flip of the rest. */
  lemma FlipParts(i: nat, j: nat)
    ensures j == 0 ==> Flip(i, j) / 2 == i / 2 && Flip(i, j) % 2 == 1 - i % 2
    ensures j > 0 ==> Flip(i, j) / 2 == Flip(i / 2, j - 1) && Flip(i, j) % 2 == i % 2
  {
    if j == 0 { XorZero(i / 2); }
  }

  lemma {:induction false} FlipTwice(i: nat, j: nat)
    ensures Flip(i, j) != i && Flip(Flip(i, j), j) == i
  {
    FlipParts(i, j);
    FlipParts(Flip(i, j), j);
    if j > 0 { FlipTwice(i / 2, j - 1); }
  }

  lemma {:induction false} FlipInjective(i: nat, j: nat, k: nat)
    requires Flip(i, j) == Flip(i, k)
    ensures j == k
  {
    FlipParts(i, j);
    FlipParts(i, k);
    if j > 0 && k > 0 {
      FlipInjective(i / 2, j - 1, k - 1);
    }
  }

  lemma DifferingParts(a: nat, b: nat)
    ensures Differing(a, b) == (a + b) % 2 + Differing(a / 2, b / 2)
  {
    if a != 0 || b != 0 {
      var x := Xor(a / 2, b / 2);
      assert Xor(a, b) == 2 * x + (a + b) % 2;
      assert Xor(a, b) / 2 == x && Xor(a, b) % 2 == (a + b) % 2;
    }
  }

  lemma {:induction false} DifferingZero(a: nat, b: nat)
    ensures Differing(a, b) == 0 <==> a == b
    decreases a + b
  {
    if a + b > 0 {
      DifferingParts(a, b);
      Parity(a, b);
      DifferingZero(a / 2, b / 2);
      assert a == 2 * (a / 2) + a % 2 && b == 2 * (b / 2) + b % 2;
    }
  }

  /** One flip moves the distance to anything by exactly one. */
  lemma {:induction false} FlipMovesByOne(i: nat, j: nat, k: nat)
    ensures Differing(Flip(i, j), k) == Differing(i, k) + 1 || Differing(Flip(i, j), k) == Differing(i, k) - 1
  {
    var f := Flip(i, j);
    FlipParts(i, j);
    DifferingParts(i, k);
    DifferingParts(f, k);
    Parity(i, k);
    Parity(f, k);
    if j > 0 { FlipMovesByOne(i / 2, j - 1, k / 2); }
  }

  lemma Parity(a: nat, b: nat)
    ensures (a + b) % 2 == if a % 2 == b % 2 then 0 else 1
  {
  }

  lemma {:induction false} DifferingBound(a: nat, b: nat, d: nat)
    requires a < Pow2(d) && b < Pow2(d)
    ensures Differing(a, b) <= d
  {
    DifferingParts(a, b);
    if d > 0 { DifferingBound(a / 2, b / 2, d - 1); } else { DifferingZero(a, b); }
  }

  /** The bit to flip next on the way from `i` to `k`: surplus bits go first, so
      that no index on the way exceeds both ends. */
  function NextBit(i: nat, k: nat): nat
    requires i != k
    decreases i + k
  {
    if i % 2 == 1 && k % 2 == 0 then 0
    else if i / 2 != k / 2 then 1 + NextBit(i / 2, k / 2)
    else 0
  }

  lemma {:induction false} NextBitApproaches(i: nat, k: nat)
    requires i != k
    ensures var j := NextBit(i, k);
            && Differing(Flip(i, j), k) == Differing(i, k) - 1
            && Flip(i, j) <= Max(i, k) && Pow2(j) <= Max(i, k)
    decreases i + k
  {
    var j := NextBit(i, k);
    var f := Flip(i, j);
    FlipParts(i, j);
    DifferingParts(i, k);
    DifferingParts(f, k);
    Parity(i, k);
    Parity(f, k);
    if j > 0 {
      NextBitApproaches(i / 2, k / 2);
      assert f == 2 * Flip(i / 2, j - 1) + i % 2;
    }
  }

  lemma {:induction false} Pow2Mono(a: nat, b: nat)
    requires Pow2(a) < Pow2(b)
    ensures a < b
  {
    if a > 0 && b > 0 { Pow2Mono(a - 1, b - 1); }
  }

  lemma {:induction false} CeilLog2Bound(n: nat, f: nat)
    requires 1 <= n <= Pow2(f)
    ensures CeilLog2(n) <= f
  {
    var d := CeilLog2(n);
    if d > 0 { Pow2Mono(d - 1, f); }
  }

  /** A flip of one of the low `d` bits stays below 2 ** d. */
  lemma {:induction false} FlipBelow(i: nat, j: nat, d: nat)
    requires i < Pow2(d) && j < d
    ensures Flip(i, j) < Pow2(d)
  {
    FlipParts(i, j);
    if j > 0 { FlipBelow(i / 2, j - 1, d - 1); }
  }

  lemma {:induction false} FlipOfZero(j: nat)
    ensures Flip(0, j) == Pow2(j) && Flip(Pow2(j), j) == 0
  {
    FlipParts(0, j);
    FlipTwice(0, j);
    if j > 0 { FlipOfZero(j - 1); }
  }

  /** The flip of a lower bit of a power of two is above it. */
  lemma {:induction false} FlipAbove(d: nat, j: nat)
    requires j < d
    ensures Flip(Pow2(d), j) > Pow2(d)
  {
    FlipParts(Pow2(d), j);
    if j > 0 { FlipAbove(d - 1, j - 1); }
  }

  /** The lowest bit that is set. */
  function LowBit(k: nat): nat
    requires k > 0
  {
    if k % 2 == 1 then 0 else 1 + LowBit(k / 2)
  }

  /** Clearing it gives a smaller index, and gives 0 only from a power of two. */
  lemma {:induction false} LowBitShape(k: nat, f: nat)
    requires 0 < k < Pow2(f + 1)
    ensures LowBit(k) <= f && Flip(k, LowBit(k)) < k
    ensures LowBit(k) == f ==> Flip(k, f) == 0
  {
    FlipParts(k, LowBit(k));
    if k % 2 == 0 {
      assert f > 0;
      LowBitShape(k / 2, f - 1);
    }
  }
}
