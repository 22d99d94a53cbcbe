/** Exact complex numbers: pairs of reals, with the ring laws the transform needs. */
module ComplexNumbers {

  datatype Complex = Complex(re: real, im: real)

  const Zero := Complex(0.0, 0.0)
  const One := Complex(1.0, 0.0)
  const MinusOne := Complex(-1.0, 0.0)

  function FromReal(x: real): Complex { Complex(x, 0.0) }

  function Add(a: Complex, b: Complex): Complex { Complex(a.re + b.re, a.im + b.im) }

  function Sub(a: Complex, b: Complex): Complex { Complex(a.re - b.re, a.im - b.im) }

  function Mul(a: Complex, b: Complex): Complex {
    Complex(a.re * b.re - a.im * b.im, a.re * b.im + a.im * b.re)
  }

  function Conj(a: Complex): Complex { Complex(a.re, -a.im) }

  function Div(a: Complex, d: real): Complex
    requires d != 0.0
  {
    Complex(a.re / d, a.im / d)
  }

  function Norm(a: Complex): real { a.re * a.re + a.im * a.im }

  function Pow(z: Complex, k: nat): Complex {
    if k == 0 then One else Mul(Pow(z, k - 1), z)
  }

  lemma MulComm(a: Complex, b: Complex)
    ensures Mul(a, b) == Mul(b, a)
  {
  }

  lemma MulAssoc(a: Complex, b: Complex, c: Complex)
    ensures Mul(Mul(a, b), c) == Mul(a, Mul(b, c))
  {
    var ab, bc := Mul(a, b), Mul(b, c);
    calc {
      Mul(ab, c).re;
      (a.re * b.re - a.im * b.im) * c.re - (a.re * b.im + a.im * b.re) * c.im;
      a.re * (b.re * c.re - b.im * c.im) - a.im * (b.re * c.im + b.im * c.re);
      Mul(a, bc).re;
    }
    calc {
      Mul(ab, c).im;
      (a.re * b.re - a.im * b.im) * c.im + (a.re * b.im + a.im * b.re) * c.re;
      a.re * (b.re * c.im + b.im * c.re) + a.im * (b.re * c.re - b.im * c.im);
      Mul(a, bc).im;
    }
  }

  lemma MulAdd(a: Complex, b: Complex, c: Complex)
    ensures Mul(a, Add(b, c)) == Add(Mul(a, b), Mul(a, c))
  {
  }

  lemma MulUnits(a: Complex)
    ensures Mul(a, One) == a && Mul(One, a) == a
    ensures Mul(a, Zero) == Zero && Mul(Zero, a) == Zero
    ensures Add(a, Zero) == a && Add(Zero, a) == a
    ensures Mul(a, MinusOne) == Sub(Zero, a)
  {
  }

  /** (ab)(cd) == (ac)(bd): the rearrangement every power law below comes down to. */
  lemma MulSwap(a: Complex, b: Complex, c: Complex, d: Complex)
    ensures Mul(Mul(a, b), Mul(c, d)) == Mul(Mul(a, c), Mul(b, d))
  {
    hide *;
    MulAssoc(a, b, Mul(c, d));
    MulAssoc(b, c, d);
    MulComm(b, c);
    MulAssoc(c, b, d);
    MulAssoc(a, c, Mul(b, d));
  }

  lemma {:induction false} PowAdd(z: Complex, j: nat, k: nat)
    ensures Pow(z, j + k) == Mul(Pow(z, j), Pow(z, k))
  {
    hide Mul, Add;
    if k == 0 {
      MulUnits(Pow(z, j));
    } else {
      PowAdd(z, j, k - 1);
      MulAssoc(Pow(z, j), Pow(z, k - 1), z);
    }
  }

  lemma {:induction false} PowOfProduct(y: Complex, z: Complex, k: nat)
    ensures Pow(Mul(y, z), k) == Mul(Pow(y, k), Pow(z, k))
  {
    hide Mul;
    if k == 0 {
      MulUnits(One);
    } else {
      PowOfProduct(y, z, k - 1);
      MulSwap(Pow(y, k - 1), Pow(z, k - 1), y, z);
    }
  }

  lemma {:induction false} PowOfOne(k: nat)
    ensures Pow(One, k) == One
  {
    hide Mul;
    if k != 0 {
      PowOfOne(k - 1);
      MulUnits(One);
    }
  }

  lemma {:induction false} PowPow(z: Complex, j: nat, k: nat)
    ensures Pow(Pow(z, j), k) == Pow(z, j * k)
  {
    hide Mul;
    if k == 0 {
    } else {
      PowPow(z, j, k - 1);
      assert j * k == j * (k - 1) + j;
      PowAdd(z, j * (k - 1), j);
    }
  }

  lemma ConjMul(a: Complex, b: Complex)
    ensures Conj(Mul(a, b)) == Mul(Conj(a), Conj(b))
  {
  }

  lemma {:induction false} ConjPow(z: Complex, k: nat)
    ensures Conj(Pow(z, k)) == Pow(Conj(z), k)
  {
    if k != 0 {
      ConjPow(z, k - 1);
      ConjMul(Pow(z, k - 1), z);
    }
  }

  lemma NormOfSquare(a: Complex)
    ensures Norm(Mul(a, a)) == Norm(a) * Norm(a)
  {
    var p, q := a.re * a.re, a.im * a.im;
    calc {
      Norm(Mul(a, a));
      (p - q) * (p - q) + (a.re * a.im + a.im * a.re) * (a.re * a.im + a.im * a.re);
      { assert (a.re * a.im + a.im * a.re) * (a.re * a.im + a.im * a.re) == 4.0 * (p * q); }
      (p - q) * (p - q) + 4.0 * (p * q);
      (p + q) * (p + q);
      Norm(a) * Norm(a);
    }
  }

  lemma NormNonNegative(a: Complex)
    ensures Norm(a) >= 0.0
  {
  }

  lemma MinusOneSquared()
    ensures Mul(MinusOne, MinusOne) == One
  {
  }

  lemma PowOne(z: Complex)
    ensures Pow(z, 1) == z
  {
    MulUnits(z);
  }
}
