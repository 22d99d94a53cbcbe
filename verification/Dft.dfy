/** The plain discrete Fourier transform, its decimations, and its inversion. */
module Dft {
  import opened ComplexNumbers
  import opened Bits

  type Samples = nat -> Complex

  function Sum(n: nat, f: Samples): Complex {
    if n == 0 then Zero else Add(Sum(n - 1, f), f(n - 1))
  }

  /** Coefficient t of the transform of x[0..n) at the root r, as a textbook writes it. */
  function Transform(x: Samples, n: nat, r: Complex, t: nat): Complex {
    Sum(n, (m: nat) => Mul(x(m), Pow(r, m * t)))
  }

  /** The polynomial with coefficients x[0..n) at z: the form the proofs work with. */
  function Eval(x: Samples, n: nat, z: Complex): Complex {
    if n == 0 then Zero else Add(Eval(x, n - 1, z), Mul(x(n - 1), Pow(z, n - 1)))
  }

  /** One root of unity per size, each the square of the next, ending at -1 for size 2. */
  ghost predicate RootFamily(w: nat -> Complex) {
    && w(2) == MinusOne
    && forall k: nat :: k > 0 ==> Mul(w(Pow2(k + 1)), w(Pow2(k + 1))) == w(Pow2(k))
  }

  // ---- polynomial form ----

  lemma PowTimes(r: Complex, m: nat, t: nat)
    ensures m * t >= 0 && Pow(r, m * t) == Pow(Pow(r, t), m)
  {
    hide Mul, Pow;
    PowPow(r, t, m);
    assert m * t == t * m;
  }

  lemma {:induction false} SumIsEval(x: Samples, n: nat, z: Complex, f: Samples)
    requires forall m: nat :: m < n ==> f(m) == Mul(x(m), Pow(z, m))
    ensures Sum(n, f) == Eval(x, n, z)
  {
    hide Mul, Pow;
    if n != 0 {
      SumIsEval(x, n - 1, z, f);
    }
  }

  lemma TransformIsEval(x: Samples, n: nat, r: Complex, t: nat)
    ensures Transform(x, n, r, t) == Eval(x, n, Pow(r, t))
  {
    hide Mul, Pow, Sum, Eval;
    forall m: nat | m < n ensures Mul(x(m), Pow(r, m * t)) == Mul(x(m), Pow(Pow(r, t), m)) {
      PowTimes(r, m, t);
    }
    SumIsEval(x, n, Pow(r, t), (m: nat) => Mul(x(m), Pow(r, m * t)));
  }

  lemma {:induction false} EvalEq(x: Samples, y: Samples, n: nat, z: Complex)
    requires forall i: nat :: i < n ==> x(i) == y(i)
    ensures Eval(x, n, z) == Eval(y, n, z)
  {
    hide Mul, Pow;
    if n != 0 {
      EvalEq(x, y, n - 1, z);
    }
  }

  lemma EvalOne(x: Samples, z: Complex)
    ensures Eval(x, 1, z) == x(0)
  {
    MulUnits(x(0));
  }

  lemma {:induction false} EvalLinear(s: Samples, x: Samples, c: Complex, y: Samples, n: nat, z: Complex)
    requires forall i: nat :: i < n ==> s(i) == Add(x(i), Mul(c, y(i)))
    ensures Eval(s, n, z) == Add(Eval(x, n, z), Mul(c, Eval(y, n, z)))
  {
    hide Mul, Pow;
    if n == 0 {
      MulUnits(c);
    } else {
      EvalLinear(s, x, c, y, n - 1, z);
      var i := n - 1;
      LinearTerm(x(i), c, y(i), Pow(z, i));
      MulAdd(c, Eval(y, i, z), Mul(y(i), Pow(z, i)));
    }
  }

  lemma LinearTerm(a: Complex, c: Complex, b: Complex, p: Complex)
    ensures Mul(Add(a, Mul(c, b)), p) == Add(Mul(a, p), Mul(c, Mul(b, p)))
  {
    hide Mul, Add;
    MulComm(Add(a, Mul(c, b)), p);
    MulAdd(p, a, Mul(c, b));
    MulComm(p, a);
    MulComm(p, Mul(c, b));
    MulAssoc(c, b, p);
  }

  /** Splitting an evaluation at h: the upper part is shifted by z^h. */
  lemma {:induction false} EvalSplit(x: Samples, high: Samples, h: nat, n: nat, z: Complex)
    requires forall i: nat :: i < n ==> high(i) == x(h + i)
    ensures Eval(x, h + n, z) == Add(Eval(x, h, z), Mul(Pow(z, h), Eval(high, n, z)))
  {
    hide Mul, Pow;
    var zh := Pow(z, h);
    if n == 0 {
      MulUnits(zh);
    } else {
      var i := n - 1;
      EvalSplit(x, high, h, i, z);
      MulAdd(zh, Eval(high, i, z), Mul(high(i), Pow(z, i)));
      PowAdd(z, h, i);
      MulAssoc(zh, high(i), Pow(z, i));
      MulComm(zh, high(i));
      MulAssoc(high(i), zh, Pow(z, i));
    }
  }

  /** Decimation in time: even and odd coefficients at the square. */
  lemma {:induction false} EvalEvenOdd(x: Samples, even: Samples, odd: Samples, h: nat, z: Complex, zz: Complex)
    requires forall i: nat :: i < h ==> even(i) == x(2 * i) && odd(i) == x(2 * i + 1)
    requires zz == Mul(z, z)
    ensures Eval(x, 2 * h, z) == Add(Eval(even, h, zz), Mul(z, Eval(odd, h, zz)))
  {
    hide Mul, Pow;
    if h == 0 {
      MulUnits(z);
    } else {
      var i := h - 1;
      EvalEvenOdd(x, even, odd, i, z, zz);
      SquarePow(z, i);
      OddPow(z, i);
      var p := Pow(zz, i);
      MulAdd(z, Eval(odd, i, zz), Mul(odd(i), p));
      MulComm(z, Mul(odd(i), p));
      MulAssoc(odd(i), p, z);
      assert Eval(x, 2 * h, z)
          == Add(Add(Eval(x, 2 * i, z), Mul(x(2 * i), Pow(z, 2 * i))), Mul(x(2 * i + 1), Pow(z, 2 * i + 1)));
    }
  }

  lemma SquarePow(z: Complex, m: nat)
    ensures Pow(Mul(z, z), m) == Pow(z, 2 * m)
  {
    hide Mul, Pow;
    PowOfProduct(z, z, m);
    PowAdd(z, m, m);
  }

  lemma OddPow(z: Complex, m: nat)
    ensures Pow(z, 2 * m + 1) == Mul(Pow(Mul(z, z), m), z)
  {
    hide Mul;
    SquarePow(z, m);
  }

  // ---- roots of unity ----

  /** Half way round the circle is -1, and all the way round is 1. */
  lemma {:induction false} RootTurns(w: nat -> Complex, k: nat)
    requires RootFamily(w) && k > 0
    ensures Pow(w(Pow2(k)), Pow2(k - 1)) == MinusOne
    ensures Pow(w(Pow2(k)), Pow2(k)) == One
  {
    hide Mul, Pow;
    var r := w(Pow2(k));
    if k == 1 {
      assert Pow2(0) == 1 && Pow2(1) == 2;
      PowOne(r);
    } else {
      RootTurns(w, k - 1);
      assert Pow2(k - 1) == 2 * Pow2(k - 2);
      SquarePow(r, Pow2(k - 2));
    }
    assert Pow2(k) == Pow2(k - 1) + Pow2(k - 1);
    PowAdd(r, Pow2(k - 1), Pow2(k - 1));
    MinusOneSquared();
  }

  /** Every root of the family lies on the unit circle, so its conjugate is its inverse. */
  lemma {:induction false} RootInverse(w: nat -> Complex, k: nat)
    requires RootFamily(w) && k > 0
    ensures Mul(w(Pow2(k)), Conj(w(Pow2(k)))) == One
  {
    var r := w(Pow2(k));
    RootNorm(w, k);
    assert Mul(r, Conj(r)).re == Norm(r) && Mul(r, Conj(r)).im == 0.0;
  }

  lemma {:induction false} RootNorm(w: nat -> Complex, k: nat)
    requires RootFamily(w) && k > 0
    ensures Norm(w(Pow2(k))) == 1.0
  {
    hide Mul;
    if k == 1 {
      assert Pow2(1) == 2;
    } else {
      RootNorm(w, k - 1);
      var r := w(Pow2(k));
      NormOfSquare(r);
      NormNonNegative(r);
      UnitSquare(Norm(r));
    }
  }

  lemma UnitSquare(v: real)
    requires v >= 0.0 && v * v == 1.0
    ensures v == 1.0
  {
    var d := v - 1.0;
    assert d * v + d == 0.0;
    var e := v + 1.0;
    assert d * e == 0.0;
    assert d == d * e / e;
  }

  /** The conjugates of a family are a family: the other direction of the circle. */
  lemma ConjugateFamily(w: nat -> Complex, v: nat -> Complex)
    requires RootFamily(w)
    requires forall size: nat :: v(size) == Conj(w(size))
    ensures RootFamily(v)
  {
    hide Mul;
    forall k: nat | k > 0 ensures Mul(v(Pow2(k + 1)), v(Pow2(k + 1))) == v(Pow2(k)) {
      ConjMul(w(Pow2(k + 1)), w(Pow2(k + 1)));
    }
  }

  // ---- inversion ----

  /** The two halves of a transform, as the butterfly computes them. */
  lemma Butterfly(x: Samples, even: Samples, odd: Samples, h: nat, r: Complex, t: nat)
    requires forall i: nat :: i < h ==> even(i) == x(2 * i) && odd(i) == x(2 * i + 1)
    requires Pow(r, h) == MinusOne
    ensures Eval(x, 2 * h, Pow(r, t))
         == Add(Eval(even, h, Pow(Mul(r, r), t)), Mul(Pow(r, t), Eval(odd, h, Pow(Mul(r, r), t))))
    ensures Eval(x, 2 * h, Pow(r, h + t))
         == Sub(Eval(even, h, Pow(Mul(r, r), t)), Mul(Pow(r, t), Eval(odd, h, Pow(Mul(r, r), t))))
  {
    hide Mul, Pow, Eval;
    var z := Pow(r, t);
    var zz := Pow(Mul(r, r), t);
    PowOfProduct(r, r, t);
    EvalEvenOdd(x, even, odd, h, z, zz);
    PowAdd(r, h, t);
    MulComm(MinusOne, z);
    var minus := Mul(z, MinusOne);
    MulSwap(z, MinusOne, z, MinusOne);
    MinusOneSquared();
    MulUnits(Mul(z, z));
    EvalEvenOdd(x, even, odd, h, minus, zz);
    var o := Eval(odd, h, zz);
    MulAssoc(z, MinusOne, o);
    MulComm(MinusOne, o);
    MulAssoc(z, o, MinusOne);
    MulUnits(Mul(z, o));
  }

  /**
   * Transforming with the roots of one family and then with the opposite one
   * gives back the samples, scaled by the length.
   */
  lemma {:induction false} Inversion(w: nat -> Complex, v: nat -> Complex, k: nat, r: Complex, u: Complex,
                                     x: Samples, X: Samples, p: nat)
    requires RootFamily(w) && RootFamily(v)
    requires forall j: nat :: j > 0 ==> Mul(w(Pow2(j)), v(Pow2(j))) == One
    requires k > 0 ==> r == w(Pow2(k)) && u == v(Pow2(k))
    requires forall t: nat :: t < Pow2(k) ==> X(t) == Eval(x, Pow2(k), Pow(r, t))
    requires p < Pow2(k)
    ensures Eval(X, Pow2(k), Pow(u, p)) == Mul(FromReal(Pow2(k) as real), x(p))
    decreases k
  {
    hide Mul, Pow, Eval;
    if k == 0 {
      EvalOne(x, Pow(r, 0));
      EvalOne(X, Pow(u, p));
      MulUnits(x(0));
    } else {
      var h, q := Pow2(k - 1), p / 2;
      var even: Samples := (m: nat) => x(2 * m);
      var odd: Samples := (m: nat) => x(2 * m + 1);
      var half: Samples := if p % 2 == 0 then even else odd;
      var rr, uu := Mul(r, r), Mul(u, u);
      var inner: Samples := (t: nat) => Eval(half, h, Pow(rr, t));
      RootTurns(w, k);
      RootTurns(v, k);
      var high: Samples := (t: nat) => X(h + t);
      forall t: nat | t < h
        ensures X(t) == Add(Eval(even, h, Pow(rr, t)), Mul(Pow(r, t), Eval(odd, h, Pow(rr, t))))
        ensures high(t) == Sub(Eval(even, h, Pow(rr, t)), Mul(Pow(r, t), Eval(odd, h, Pow(rr, t))))
      {
        Butterfly(x, even, odd, h, r, t);
      }
      EvalFolds(X, high, even, odd, h, r, u, p, inner);
      assert k > 1 ==> rr == w(Pow2(k - 1)) && uu == v(Pow2(k - 1));
      Inversion(w, v, k - 1, rr, uu, half, inner, q);
      DoubleScale(h, x(p));
    }
  }

  lemma DoubleScale(h: nat, c: Complex)
    ensures Mul(FromReal(2.0), Mul(FromReal(h as real), c)) == Mul(FromReal((2 * h) as real), c)
  {
  }

  /** Evaluating butterfly outputs at an opposite root keeps one half and doubles it. */
  lemma EvalFolds(X: Samples, high: Samples, even: Samples, odd: Samples, h: nat, r: Complex, u: Complex, p: nat,
                  inner: Samples)
    requires forall t: nat {:trigger X(t)} :: t < h ==>
      X(t) == Add(Eval(even, h, Pow(Mul(r, r), t)), Mul(Pow(r, t), Eval(odd, h, Pow(Mul(r, r), t))))
    requires forall t: nat {:trigger high(t)} :: t < h ==> high(t) == X(h + t)
    requires forall t: nat {:trigger high(t)} :: t < h ==>
      high(t) == Sub(Eval(even, h, Pow(Mul(r, r), t)), Mul(Pow(r, t), Eval(odd, h, Pow(Mul(r, r), t))))
    requires forall t: nat {:trigger inner(t)} :: t < h ==>
      inner(t) == Eval(if p % 2 == 0 then even else odd, h, Pow(Mul(r, r), t))
    requires Mul(r, u) == One && Pow(u, h) == MinusOne
    ensures Eval(X, 2 * h, Pow(u, p)) == Mul(FromReal(2.0), Eval(inner, h, Pow(Mul(u, u), p / 2)))
  {
    hide Mul, Pow, Sum, Add;
    var z := Pow(u, p);
    EvalSplit(X, high, h, h, z);
    EvalFoldsTo(X, high, even, odd, h, h, r, u, p, inner);
  }

  lemma {:induction false} EvalFoldsTo(X: Samples, high: Samples, even: Samples, odd: Samples, h: nat, n: nat,
                                       r: Complex, u: Complex, p: nat, inner: Samples)
    requires forall t: nat {:trigger X(t)} :: t < n ==>
      X(t) == Add(Eval(even, h, Pow(Mul(r, r), t)), Mul(Pow(r, t), Eval(odd, h, Pow(Mul(r, r), t))))
    requires forall t: nat {:trigger high(t)} :: t < n ==>
      high(t) == Sub(Eval(even, h, Pow(Mul(r, r), t)), Mul(Pow(r, t), Eval(odd, h, Pow(Mul(r, r), t))))
    requires forall t: nat {:trigger inner(t)} :: t < n ==>
      inner(t) == Eval(if p % 2 == 0 then even else odd, h, Pow(Mul(r, r), t))
    requires Mul(r, u) == One && Pow(u, h) == MinusOne
    ensures Add(Eval(X, n, Pow(u, p)), Mul(Pow(Pow(u, p), h), Eval(high, n, Pow(u, p))))
         == Mul(FromReal(2.0), Eval(inner, n, Pow(Mul(u, u), p / 2)))
  {
    hide Mul, Pow, Add, Sub;
    var z, q := Pow(u, p), Pow(Mul(u, u), p / 2);
    var two, c := FromReal(2.0), Pow(Pow(u, p), h);
    if n == 0 {
      MulUnits(two);
      MulUnits(c);
      MulUnits(Zero);
    } else {
      var t := n - 1;
      EvalFoldsTo(X, high, even, odd, h, t, r, u, p, inner);
      FoldedTerm(Eval(even, h, Pow(Mul(r, r), t)), Eval(odd, h, Pow(Mul(r, r), t)), r, u, h, p, t);
      LinearTerm(X(t), c, high(t), Pow(z, t));
      LinearStep(Eval(X, t, z), Mul(X(t), Pow(z, t)), c, Eval(high, t, z), Mul(high(t), Pow(z, t)),
                 two, Eval(inner, t, q), Mul(inner(t), Pow(q, t)));
    }
  }

  lemma LinearStep(a: Complex, da: Complex, c: Complex, b: Complex, db: Complex, d: Complex, e: Complex, de: Complex)
    requires Add(a, Mul(c, b)) == Mul(d, e) && Add(da, Mul(c, db)) == Mul(d, de)
    ensures Add(Add(a, da), Mul(c, Add(b, db))) == Mul(d, Add(e, de))
  {
    hide Mul;
    MulAdd(c, b, db);
    MulAdd(d, e, de);
  }

  lemma FoldedTerm(e: Complex, o: Complex, r: Complex, u: Complex, h: nat, p: nat, t: nat)
    requires Mul(r, u) == One && Pow(u, h) == MinusOne
    ensures var zo, z := Mul(Pow(r, t), o), Pow(u, p);
      Mul(Add(Add(e, zo), Mul(Pow(z, h), Sub(e, zo))), Pow(z, t))
      == Mul(FromReal(2.0), Mul(if p % 2 == 0 then e else o, Pow(Pow(Mul(u, u), p / 2), t)))
  {
    hide Mul, Pow, Add, Sub;
    var q, uu := p / 2, Mul(u, u);
    SignOfHalfTurn(u, h, p);
    SquarePow(u, q);
    if p % 2 == 0 {
      FoldEven(e, Mul(Pow(r, t), o), Pow(Pow(u, p), t));
    } else {
      OddPow(u, q);
      PowOfProduct(Pow(uu, q), u, t);
      PowOfProduct(r, u, t);
      PowOfOne(t);
      FoldOdd(e, o, Pow(r, t), Pow(Pow(uu, q), t), Pow(u, t));
    }
  }

  lemma SignOfHalfTurn(u: Complex, h: nat, p: nat)
    requires Pow(u, h) == MinusOne
    ensures Pow(Pow(u, p), h) == if p % 2 == 0 then One else MinusOne
  {
    hide Mul, Pow;
    PowPow(u, p, h);
    PowPow(u, h, p);
    assert p * h == h * p;
    SquarePow(MinusOne, p / 2);
    MinusOneSquared();
    PowOfOne(p / 2);
    if p % 2 == 1 {
      OddPow(MinusOne, p / 2);
      MulUnits(One);
      MulUnits(MinusOne);
    }
  }

  lemma FoldEven(e: Complex, zo: Complex, y: Complex)
    ensures Mul(Add(Add(e, zo), Mul(One, Sub(e, zo))), y) == Mul(FromReal(2.0), Mul(e, y))
  {
    assert Add(Add(e, zo), Mul(One, Sub(e, zo))) == Mul(FromReal(2.0), e);
    MulAssoc(FromReal(2.0), e, y);
  }

  lemma FoldOdd(e: Complex, o: Complex, z: Complex, y: Complex, i: Complex)
    requires Mul(z, i) == One
    ensures Mul(Add(Add(e, Mul(z, o)), Mul(MinusOne, Sub(e, Mul(z, o)))), Mul(y, i)) == Mul(FromReal(2.0), Mul(o, y))
  {
    var two := FromReal(2.0);
    var zo := Mul(z, o);
    assert Add(Add(e, zo), Mul(MinusOne, Sub(e, zo))) == Mul(two, zo);
    hide Mul;
    MulAssoc(two, zo, Mul(y, i));
    MulComm(z, o);
    MulSwap(o, z, y, i);
    MulUnits(Mul(o, y));
  }
}
