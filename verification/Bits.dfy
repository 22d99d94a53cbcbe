/** Powers of two, the bit operators on naturals, and the bit reversal of a counter. */
module Bits {

  function Pow2(k: nat): (r: nat)
    ensures r >= 1
  {
    if k == 0 then 1 else 2 * Pow2(k - 1)
  }

  function BitAnd(a: nat, b: nat): nat {
    if a == 0 || b == 0 then 0 else (if a % 2 == 1 && b % 2 == 1 then 1 else 0) + 2 * BitAnd(a / 2, b / 2)
  }

  function BitOr(a: nat, b: nat): nat
    decreases a + b
  {
    if a == 0 && b == 0 then 0
    else (if a % 2 == 1 || b % 2 == 1 then 1 else 0) + 2 * BitOr(a / 2, b / 2)
  }

  function BitXor(a: nat, b: nat): nat
    decreases a + b
  {
    if a == 0 && b == 0 then 0
    else (a + b) % 2 + 2 * BitXor(a / 2, b / 2)
  }

  ghost predicate IsPow2(n: nat) {
    exists k: nat :: n == Pow2(k)
  }

  /** `n & (n - 1)` is zero exactly for the powers of two. */
  lemma {:induction false} PowerOfTwoTest(n: nat)
    requires n > 0
    ensures BitAnd(n, n - 1) == 0 <==> IsPow2(n)
  {
    if n == 1 {
      assert Pow2(0) == 1;
    } else if n % 2 == 1 {
      assert n / 2 == (n - 1) / 2;
      AndSelf(n / 2);
      forall k: nat ensures n != Pow2(k) { }
    } else {
      assert (n - 1) / 2 == n / 2 - 1;
      PowerOfTwoTest(n / 2);
      if k: nat :| n / 2 == Pow2(k) {
        assert n == Pow2(k + 1);
      }
      if k: nat :| n == Pow2(k) {
        assert n / 2 == Pow2(k - 1);
      }
    }
  }

  lemma {:induction false} AndSelf(a: nat)
    ensures BitAnd(a, a) == a
  {
    if a != 0 {
      AndSelf(a / 2);
    }
  }

  /** Each operator against an even number, one bit down. */
  lemma OpsOneBitDown(j: nat, p: nat)
    ensures BitAnd(j, 2 * p) == 2 * BitAnd(j / 2, p)
    ensures BitOr(j, 2 * p) == j % 2 + 2 * BitOr(j / 2, p)
    ensures BitXor(j, 2 * p) == j % 2 + 2 * BitXor(j / 2, p)
  {
    var even := 2 * p;
    Halving(p, even);
    Halving(j / 2, j - j % 2);
    assert (j + even) % 2 == j % 2;
    hide *;
    AndStep(j, even);
    OrStep(j, even);
    XorStep(j, even);
  }

  lemma Halving(p: nat, even: nat)
    requires even == 2 * p
    ensures even / 2 == p && even % 2 == 0
  {
  }

  lemma AndStep(a: nat, b: nat)
    ensures BitAnd(a, b) == (if a % 2 == 1 && b % 2 == 1 then 1 else 0) + 2 * BitAnd(a / 2, b / 2)
  {
  }

  lemma OrStep(a: nat, b: nat)
    ensures BitOr(a, b) == (if a % 2 == 1 || b % 2 == 1 then 1 else 0) + 2 * BitOr(a / 2, b / 2)
  {
  }

  lemma XorStep(a: nat, b: nat)
    ensures BitXor(a, b) == (a + b) % 2 + 2 * BitXor(a / 2, b / 2)
  {
  }

  lemma OpsLowBit(j: nat)
    requires j < 2
    ensures BitAnd(j, 1) == j && (j == 1 ==> BitXor(j, 1) == 0) && (j == 0 ==> BitOr(j, 1) == 1)
  {
    assert BitAnd(0, 0) == 0 && BitXor(0, 0) == 0 && BitOr(0, 0) == 0;
  }

  /** Below bit k + 1, bit k of j is set exactly when j reaches it; clearing and setting it are - and +. */
  lemma {:induction false} TopBit(j: nat, k: nat)
    requires j < Pow2(k + 1)
    ensures BitAnd(j, Pow2(k)) == (if j >= Pow2(k) then Pow2(k) else 0)
    ensures j >= Pow2(k) ==> BitXor(j, Pow2(k)) == j - Pow2(k)
    ensures j < Pow2(k) ==> BitOr(j, Pow2(k)) == j + Pow2(k)
  {
    hide BitAnd, BitOr, BitXor;
    if k == 0 {
      assert Pow2(0) == 1 && Pow2(1) == 2;
      OpsLowBit(j);
    } else {
      var p := Pow2(k - 1);
      assert Pow2(k) == 2 * p && Pow2(k + 1) == 4 * p;
      TopBit(j / 2, k - 1);
      OpsOneBitDown(j, p);
    }
  }

  /** The low `bits` bits of i, read backwards. */
  function Rev(i: nat, bits: nat): (r: nat)
    ensures r < Pow2(bits)
  {
    if bits == 0 then 0 else (if i % 2 == 1 then Pow2(bits - 1) else 0) + Rev(i / 2, bits - 1)
  }

  /** Reversal peeled from the other end. */
  lemma {:induction false} RevTop(i: nat, bits: nat)
    requires bits > 0 && i < Pow2(bits)
    ensures i < Pow2(bits - 1) ==> Rev(i, bits) == 2 * Rev(i, bits - 1)
    ensures i >= Pow2(bits - 1) ==> Rev(i, bits) == 2 * Rev(i - Pow2(bits - 1), bits - 1) + 1
  {
    if bits == 1 {
      assert Pow2(1) == 2;
    } else {
      var p := Pow2(bits - 2);
      assert Pow2(bits - 1) == 2 * p;
      RevTop(i / 2, bits - 1);
      if i >= 2 * p {
        assert (i - 2 * p) / 2 == i / 2 - p && (i - 2 * p) % 2 == i % 2;
      }
    }
  }

  lemma {:induction false} RevInvolution(i: nat, bits: nat)
    requires i < Pow2(bits)
    ensures Rev(Rev(i, bits), bits) == i
  {
    if bits != 0 {
      var low, p := Rev(i / 2, bits - 1), Pow2(bits - 1);
      RevInvolution(i / 2, bits - 1);
      RevTop(Rev(i, bits), bits);
      if i % 2 == 1 {
        assert Rev(i, bits) - p == low;
      }
    }
  }

  lemma {:induction false} Pow2Add(j: nat, k: nat)
    ensures Pow2(j + k) == Pow2(j) * Pow2(k)
  {
    if k != 0 {
      Pow2Add(j, k - 1);
      assert Pow2(j) * Pow2(k) == 2 * (Pow2(j) * Pow2(k - 1));
    }
  }

  lemma {:induction false} Pow2Mono(j: nat, k: nat)
    requires j < k
    ensures 2 * Pow2(j) <= Pow2(k)
  {
    if j + 1 < k {
      Pow2Mono(j, k - 1);
    }
  }
}
