/** The normalised cross-correlation computed through the transform. */
module Correlation {
  import opened Bits
  import opened ComplexNumbers
  import opened CrossCorrelation
  import opened Dft
  import opened InPlaceFft
  import opened Wrappers

  datatype CorrelateError = UnequalOrEmpty | LagTooLarge

  datatype Peak = Peak(lag: int, value: real, refined: real)

  // ---- the correlation theorem ----

  lemma PowPeriod(r: Complex, n: nat, q: nat)
    requires n > 0 && Pow(r, n) == One
    ensures Pow(r, q) == Pow(r, q % n)
  {
    hide Mul, Pow;
    var d, m := q / n, q % n;
    assert q == n * d + m;
    PowAdd(r, n * d, m);
    PowPow(r, n, d);
    PowOfOne(d);
    MulUnits(Pow(r, m));
  }

  /** sum over m < count of a(m) * b((p + m) mod n): the circular correlation. */
  function Circular(a: Samples, b: Samples, n: nat, p: nat, count: nat): Complex
    requires n > 0
  {
    if count == 0 then Zero
    else Add(Circular(a, b, n, p, count - 1), Mul(a(count - 1), b((p + count - 1) % n)))
  }

  lemma {:induction false} ConjEval(a: Samples, n: nat, z: Complex)
    requires forall m: nat :: m < n ==> Conj(a(m)) == a(m)
    ensures Conj(Eval(a, n, z)) == Eval(a, n, Conj(z))
  {
    hide Mul, Pow;
    if n != 0 {
      ConjEval(a, n - 1, z);
      ConjMul(a(n - 1), Pow(z, n - 1));
      ConjPow(z, n - 1);
    }
  }

  /** Turning every coefficient by (w^t)^m is evaluating m roots further on. */
  lemma {:induction false} TurnedEval(b: Samples, turned: Samples, n: nat, w: Complex, m: nat, p: nat)
    requires forall t: nat {:trigger turned(t)} :: t < n ==> turned(t) == Mul(Pow(Pow(w, t), m), b(t))
    ensures Eval(turned, n, Pow(w, p)) == Eval(b, n, Pow(w, p + m))
  {
    hide Mul, Pow;
    if n != 0 {
      var t := n - 1;
      TurnedEval(b, turned, t, w, m, p);
      PowPow(w, t, m);
      PowPow(w, m, t);
      assert t * m == m * t;
      PowAdd(w, p, m);
      PowOfProduct(Pow(w, p), Pow(w, m), t);
      MulComm(Pow(Pow(w, t), m), b(t));
      MulAssoc(b(t), Pow(Pow(w, m), t), Pow(Pow(w, p), t));
      MulComm(Pow(Pow(w, m), t), Pow(Pow(w, p), t));
    }
  }

  /**
   * The products of one partial transform with another transform, turned back:
   * the circular correlation of the first `count` samples, scaled by the length.
   */
  lemma {:induction false} PartialCorrelation(a: Samples, b: Samples, B: Samples, P: Samples, n: nat, w: Complex,
                                              p: nat, count: nat)
    requires n > 0 && Pow(w, n) == One
    requires forall t: nat {:trigger P(t)} :: t < n ==> P(t) == Mul(Eval(a, count, Pow(w, t)), B(t))
    requires forall q: nat {:trigger Pow(w, q)} :: q < n ==> Eval(B, n, Pow(w, q)) == Mul(FromReal(n as real), b(q))
    ensures Eval(P, n, Pow(w, p)) == Mul(FromReal(n as real), Circular(a, b, n, p, count))
  {
    hide Mul, Pow, Eval;
    var scale := FromReal(n as real);
    if count == 0 {
      EmptyCorrelation(a, B, P, n, w, p);
      MulUnits(scale);
    } else {
      var m := count - 1;
      var before: Samples := (t: nat) => Mul(Eval(a, m, Pow(w, t)), B(t));
      var turned: Samples := (t: nat) => Mul(Pow(Pow(w, t), m), B(t));
      PartialCorrelation(a, b, B, before, n, w, p, m);
      forall t: nat | t < n ensures P(t) == Add(before(t), Mul(a(m), turned(t))) {
        PartialTerm(a, m, Pow(w, t), B(t));
      }
      EvalLinear(P, before, a(m), turned, n, Pow(w, p));
      TurnedEval(B, turned, n, w, m, p);
      PowPeriod(w, n, p + m);
      ScaleLinear(scale, Circular(a, b, n, p, m), a(m), b((p + m) % n));
    }
  }

  lemma {:induction false} EmptyCorrelation(a: Samples, B: Samples, P: Samples, n: nat, w: Complex, p: nat)
    requires forall t: nat {:trigger P(t)} :: t < n ==> P(t) == Mul(Eval(a, 0, Pow(w, t)), B(t))
    ensures Eval(P, n, Pow(w, p)) == Zero
  {
    hide Mul, Pow;
    if n != 0 {
      EmptyCorrelation(a, B, P, n - 1, w, p);
      MulUnits(B(n - 1));
      MulUnits(Pow(Pow(w, p), n - 1));
    }
  }

  lemma PartialTerm(a: Samples, m: nat, z: Complex, b: Complex)
    ensures Mul(Eval(a, m + 1, z), b) == Add(Mul(Eval(a, m, z), b), Mul(a(m), Mul(Pow(z, m), b)))
  {
    hide Mul, Pow;
    var e, f := Eval(a, m, z), Mul(a(m), Pow(z, m));
    MulComm(Add(e, f), b);
    MulAdd(b, e, f);
    MulComm(b, e);
    MulComm(b, f);
    MulAssoc(a(m), Pow(z, m), b);
  }

  lemma ScaleLinear(s: Complex, c: Complex, x: Complex, y: Complex)
    ensures Add(Mul(s, c), Mul(x, Mul(s, y))) == Mul(s, Add(c, Mul(x, y)))
  {
    hide Mul;
    MulAdd(s, c, Mul(x, y));
    MulComm(x, Mul(s, y));
    MulAssoc(s, y, x);
    MulComm(y, x);
  }

  /** Multiplying conj(A) by B and inverting gives the circular correlation of a real a with b. */
  lemma CorrelationTheorem(w: nat -> Complex, k: nat, a: seq<Complex>, b: seq<Complex>,
                           A: seq<Complex>, B: seq<Complex>, P: seq<Complex>, p: nat)
    requires RootFamily(w) && p < Pow2(k)
    requires |a| == |b| == |A| == |B| == |P| == Pow2(k)
    requires forall t :: 0 <= t < Pow2(k) ==> a[t].im == 0.0
    requires forall t :: 0 <= t < Pow2(k) ==> A[t] == Transform(At(a), Pow2(k), Conj(w(Pow2(k))), t)
    requires forall t :: 0 <= t < Pow2(k) ==> B[t] == Transform(At(b), Pow2(k), Conj(w(Pow2(k))), t)
    requires forall t :: 0 <= t < Pow2(k) ==> P[t] == Mul(Conj(A[t]), B[t])
    ensures Div(Transform(At(P), Pow2(k), w(Pow2(k)), p), Pow2(k) as real)
         == Circular(At(a), At(b), Pow2(k), p, Pow2(k))
  {
    hide Mul, Pow, Eval, Transform, RootFamily, Div;
    var n := Pow2(k);
    var r := w(n);
    if k == 0 {
      CorrelationOfOne(w, a, b, A, B, P);
    } else {
      RootTurns(w, k);
      forall t: nat | t < n ensures At(P)(t) == Mul(Eval(At(a), n, Pow(r, t)), At(B)(t)) {
        TransformIsEval(At(a), n, Conj(r), t);
        ConjEval(At(a), n, Pow(Conj(r), t));
        ConjPow(Conj(r), t);
      }
      forall q: nat | q < n ensures Eval(At(B), n, Pow(r, q)) == Mul(FromReal(n as real), At(b)(q)) {
        TransformScales(w, k, b, B, q);
      }
      PartialCorrelation(At(a), At(b), At(B), At(P), n, r, p, n);
      TransformIsEval(At(P), n, r, p);
      DivUndoesScale(n as real, Circular(At(a), At(b), n, p, n));
    }
  }

  lemma TransformScales(w: nat -> Complex, k: nat, b: seq<Complex>, B: seq<Complex>, q: nat)
    requires RootFamily(w) && k > 0 && |b| == |B| == Pow2(k) && q < Pow2(k)
    requires forall t :: 0 <= t < Pow2(k) ==> B[t] == Transform(At(b), Pow2(k), Conj(w(Pow2(k))), t)
    ensures Eval(At(B), Pow2(k), Pow(w(Pow2(k)), q)) == Mul(FromReal(Pow2(k) as real), At(b)(q))
  {
    hide Mul, Pow, Eval, Transform, RootFamily;
    var n := Pow2(k);
    var v: nat -> Complex := (s: nat) => Conj(w(s));
    ConjugateFamily(w, v);
    forall j: nat | j > 0 ensures Mul(v(Pow2(j)), w(Pow2(j))) == One {
      RootInverse(w, j);
      MulComm(w(Pow2(j)), v(Pow2(j)));
    }
    forall t: nat | t < n ensures At(B)(t) == Eval(At(b), n, Pow(v(n), t)) {
      TransformIsEval(At(b), n, v(n), t);
    }
    Inversion(v, w, k, v(n), w(n), At(b), At(B), q);
  }

  lemma CorrelationOfOne(w: nat -> Complex, a: seq<Complex>, b: seq<Complex>,
                         A: seq<Complex>, B: seq<Complex>, P: seq<Complex>)
    requires |a| == |b| == |A| == |B| == |P| == 1 && a[0].im == 0.0
    requires A[0] == Transform(At(a), 1, Conj(w(1)), 0) && B[0] == Transform(At(b), 1, Conj(w(1)), 0)
    requires P[0] == Mul(Conj(A[0]), B[0])
    ensures Div(Transform(At(P), 1, w(1), 0), 1.0) == Circular(At(a), At(b), 1, 0, 1)
  {
    hide Mul, Pow, Eval, Transform;
    TransformIsEval(At(a), 1, Conj(w(1)), 0);
    TransformIsEval(At(b), 1, Conj(w(1)), 0);
    TransformIsEval(At(P), 1, w(1), 0);
    EvalOne(At(a), Pow(Conj(w(1)), 0));
    EvalOne(At(b), Pow(Conj(w(1)), 0));
    EvalOne(At(P), Pow(w(1), 0));
    assert Circular(At(a), At(b), 1, 0, 1) == Add(Circular(At(a), At(b), 1, 0, 0), Mul(a[0], b[0]));
    assert Conj(a[0]) == a[0];
  }

  // ---- padding ----

  function Padded(s: seq<real>, size: nat): (r: seq<Complex>)
    requires |s| <= size
    ensures |r| == size
  {
    seq(size, i requires 0 <= i < size => if i < |s| then FromReal(s[i]) else Zero)
  }

  /** With room for 2n samples nothing wraps: the circular correlation is the direct one. */
  lemma {:induction false} PaddingUnwraps(source: seq<real>, target: seq<real>, size: nat, lag: int, count: nat)
    requires |source| == |target| && 2 * |source| <= size && 0 < |source|
    requires -|source| < lag < |source| && count <= size
    ensures var a, b := Padded(source, size), Padded(target, size);
      Circular(At(a), At(b), size, lag % size, count)
      == FromReal(Overlap(source, target, lag, if count <= |source| then count else |source|))
  {
    hide Mul, At, Padded;
    if count != 0 {
      PaddingUnwraps(source, target, size, lag, count - 1);
      PaddedTerm(source, target, size, lag, count - 1);
    }
  }

  lemma PaddedTerm(source: seq<real>, target: seq<real>, size: nat, lag: int, m: nat)
    requires |source| == |target| && 2 * |source| <= size && 0 < |source|
    requires -|source| < lag < |source| && m < size
    ensures Mul(At(Padded(source, size))(m), At(Padded(target, size))((lag % size + m) % size))
         == FromReal(if m < |source| then Sample(source, m) * Sample(target, m + lag) else 0.0)
  {
    hide Mul;
    var other := At(Padded(target, size))((lag % size + m) % size);
    WrappedIndex(lag, m, size);
    if m < |source| {
      ProductOfReals(source[m], Sample(target, m + lag));
      assert other == FromReal(Sample(target, m + lag));
    } else {
      MulUnits(other);
    }
  }

  lemma ProductOfReals(x: real, y: real)
    ensures Mul(FromReal(x), FromReal(y)) == FromReal(x * y)
  {
  }

  lemma WrappedIndex(lag: int, m: nat, size: int)
    requires -size < lag < size && m < size
    ensures (lag % size + m) % size
         == if 0 <= lag + m < size then lag + m else if lag + m < 0 then lag + m + size else lag + m - size
  {
    Reduced(lag, size);
    Reduced(lag % size + m, size);
  }

  lemma Reduced(i: int, size: int)
    requires size > 0 && -size <= i < 2 * size
    ensures i % size == if i < 0 then i + size else if i < size then i else i - size
  {
    var q, r := i / size, i % size;
    assert i == size * q + r;
    if q > 1 {
      MulAtLeast(size, 2, q);
    } else if q < -1 {
      MulAtLeast(size, q, -2);
    }
  }

  lemma MulAtLeast(a: int, x: int, y: int)
    requires a > 0 && x <= y
    ensures a * x <= a * y
  {
  }

  // ---- the method ----

  method LargestCoefficient(values: map<int, real>, maxLag: int) returns (best: int)
    requires maxLag >= 0 && forall k :: -maxLag <= k <= maxLag ==> k in values
    ensures -maxLag <= best <= maxLag
    ensures forall k :: -maxLag <= k <= maxLag ==> Abs(values[k]) <= Abs(values[best])
    ensures forall k :: -maxLag <= k < best ==> Abs(values[k]) < Abs(values[best])
  {
    best := -maxLag;
    for k := -maxLag + 1 to maxLag + 1
      invariant -maxLag <= best < k
      invariant forall i :: -maxLag <= i < k ==> Abs(values[i]) <= Abs(values[best])
      invariant forall i :: -maxLag <= i < best ==> Abs(values[i]) < Abs(values[best])
    {
      if Abs(values[k]) > Abs(values[best]) {
        best := k;
      }
    }
  }

  function Bend(left: real, centre: real, right: real): real {
    left - 2.0 * centre + right
  }

  /** Where the parabola through (-1, left), (0, centre) and (1, right) turns. */
  function Turn(left: real, centre: real, right: real): real
    requires Bend(left, centre, right) != 0.0
  {
    0.5 * (left - right) / Bend(left, centre, right)
  }

  function Parabola(a: real, b: real, c: real, x: real): real {
    a * x * x + b * x + c
  }

  /** Nowhere does a parabola that opens downwards rise above its value at the turn, nor one that opens upwards fall below. */
  lemma ParabolaTurns(a: real, b: real, c: real, x: real)
    ensures var (left, right) := (Parabola(a, b, c, -1.0), Parabola(a, b, c, 1.0));
      && Parabola(a, b, c, 0.0) == c
      && Bend(left, c, right) == 2.0 * a
      && (a < 0.0 ==> Parabola(a, b, c, x) <= Parabola(a, b, c, Turn(left, c, right)))
      && (a > 0.0 ==> Parabola(a, b, c, x) >= Parabola(a, b, c, Turn(left, c, right)))
  {
    if a != 0.0 {
      var t := Turn(Parabola(a, b, c, -1.0), c, Parabola(a, b, c, 1.0));
      assert t * (2.0 * a) == -b;
      CompletedSquare(a, b, c, t, x);
      SquareSign(a, x - t);
    }
  }

  lemma CompletedSquare(a: real, b: real, c: real, t: real, x: real)
    requires t * (2.0 * a) == -b
    ensures Parabola(a, b, c, x) - Parabola(a, b, c, t) == a * ((x - t) * (x - t))
  {
    assert a * ((x - t) * (x - t)) == a * x * x - t * (2.0 * a) * x + a * t * t;
    assert a * t * t + b * t == -(a * t * t);
  }

  lemma SquareSign(a: real, d: real)
    ensures a > 0.0 ==> a * (d * d) >= 0.0
    ensures a < 0.0 ==> a * (d * d) <= 0.0
  {
    assert d * d >= 0.0;
  }

  /** The parabola through three coefficients whose middle one is the largest turns within half a sample. */
  lemma RefinementWithinHalf(left: real, centre: real, right: real)
    requires Abs(left) <= Abs(centre) && Abs(right) <= Abs(centre)
    requires Bend(left, centre, right) != 0.0
    ensures Abs(Turn(left, centre, right)) <= 0.5
  {
    var d := left - 2.0 * centre + right;
    var u := 0.5 * (left - right);
    if centre >= 0.0 {
      assert d < 0.0 && d <= 2.0 * u <= -d;
    } else {
      assert d > 0.0 && -d <= 2.0 * u <= d;
    }
    HalfQuotient(u, d);
  }

  lemma HalfQuotient(u: real, d: real)
    requires d != 0.0 && 2.0 * Abs(u) <= Abs(d)
    ensures -0.5 <= u / d <= 0.5
  {
    var q := u / d;
    assert q * d == u;
    if q > 0.5 {
      if d > 0.0 { MulMonoStrict(d, 0.5, q); } else { MulMonoStrict(-d, 0.5, q); }
    } else if q < -0.5 {
      if d > 0.0 { MulMonoStrict(d, q, -0.5); } else { MulMonoStrict(-d, q, -0.5); }
    }
  }

  lemma MulMonoStrict(a: real, x: real, y: real)
    requires a > 0.0 && x < y
    ensures a * x < a * y
  {
  }

  /** The samples the inverse transform returns, all lags at once. */
  method CorrelateAll(source: seq<real>, target: seq<real>, w: nat -> Complex)
      returns (product: seq<Complex>, size: nat)
    requires RootFamily(w) && 0 < |source| == |target|
    ensures 2 * |source| <= size && |product| == size
    ensures forall lag :: -|source| < lag < |source| ==> product[lag % size] == FromReal(Cross(source, target, lag))
  {
    hide Transform, RootFamily, Mul, Circular, Overlap;
    var n := |source|;
    size := 1;
    ghost var k := 0;
    while size < 2 * n
      invariant size == Pow2(k)
      decreases 2 * n - size
    {
      size := size * 2;
      k := k + 1;
    }
    assert IsPow2(size);
    var x, y := Padded(source, size), Padded(target, size);
    var a := Fft(x, false, w);
    var b := Fft(y, false, w);
    var spectrum := seq(size, i requires 0 <= i < size => Mul(Conj(a.value[i]), b.value[i]));
    var inverse := Fft(spectrum, true, w);
    product := inverse.value;
    forall lag | -n < lag < n ensures product[lag % size] == FromReal(Cross(source, target, lag)) {
      CorrelationTheorem(w, k, x, y, a.value, b.value, spectrum, lag % size);
      PaddingUnwraps(source, target, size, lag, size);
    }
  }

  /** From the largest coefficient to where the parabola through it and its neighbours turns. */
  method Refine(values: map<int, real>, maxLag: int, lag: int) returns (refined: real)
    requires -maxLag <= lag <= maxLag
    requires forall k :: -maxLag <= k <= maxLag ==> k in values
    requires forall k :: -maxLag <= k <= maxLag ==> Abs(values[k]) <= Abs(values[lag])
    ensures refined - lag as real ==
      if -maxLag < lag < maxLag && Bend(values[lag - 1], values[lag], values[lag + 1]) != 0.0
      then Turn(values[lag - 1], values[lag], values[lag + 1]) else 0.0
    ensures Abs(refined - lag as real) <= 0.5
  {
    refined := lag as real;
    if -maxLag < lag < maxLag {
      var left, centre, right := values[lag - 1], values[lag], values[lag + 1];
      var denominator := left - 2.0 * centre + right;
      if denominator != 0.0 {
        RefinementWithinHalf(left, centre, right);
        assert Turn(left, centre, right) == 0.5 * (left - right) / denominator;
        refined := refined + 0.5 * (left - right) / denominator;
      }
    }
  }

  method Correlate(source: seq<real>, target: seq<real>, maxLag: int, w: nat -> Complex, sqrt: real -> real)
      returns (r: Result<Peak, CorrelateError>)
    requires RootFamily(w)
    requires IsSqrt(sqrt(Energy(source) * Energy(target)), Energy(source) * Energy(target))
    ensures r.Err? <==> |source| != |target| || |source| == 0 || !(0 <= maxLag < |source|)
    ensures r.Err? ==> r.error == if |source| != |target| || |source| == 0 then UnequalOrEmpty else LagTooLarge
    ensures r.Ok? ==> var energy := sqrt(Energy(source) * Energy(target));
      if energy == 0.0 then r.value == Peak(0, 0.0, 0.0)
      else
        && -maxLag <= r.value.lag <= maxLag
        && r.value.value == Cross(source, target, r.value.lag) / energy
        && -1.0 <= r.value.value <= 1.0
        && (forall k :: -maxLag <= k <= maxLag ==> Abs(Cross(source, target, k) / energy) <= Abs(r.value.value))
        && (forall k :: -maxLag <= k < r.value.lag ==> Abs(Cross(source, target, k) / energy) < Abs(r.value.value))
        && var k, step := r.value.lag, r.value.refined - r.value.lag as real;
        && var left, right := Cross(source, target, k - 1) / energy, Cross(source, target, k + 1) / energy;
        && Abs(step) <= 0.5
        && step == if -maxLag < k < maxLag && Bend(left, r.value.value, right) != 0.0 then Turn(left, r.value.value, right) else 0.0
  {
    var n := |source|;
    if n != |target| || n == 0 {
      return Err(UnequalOrEmpty);
    }
    if !(0 <= maxLag < n) {
      return Err(LagTooLarge);
    }
    var energy := sqrt(Energy(source) * Energy(target));
    if energy == 0.0 {
      return Ok(Peak(0, 0.0, 0.0));
    }
    hide Cross, RootFamily, IsSqrt, Energy, Bend, Turn, Abs;
    var product, size := CorrelateAll(source, target, w);
    var values := map lag: int | -maxLag <= lag <= maxLag :: product[lag % size].re / energy;
    forall k | -maxLag <= k <= maxLag ensures values[k] == Cross(source, target, k) / energy {
      assert product[k % size] == FromReal(Cross(source, target, k));
    }
    var lag := LargestCoefficient(values, maxLag);
    var refined := Refine(values, maxLag, lag);
    PositiveRoot(energy, Energy(source) * Energy(target));
    CoefficientInRange(source, target, lag, energy);
    r := Ok(Peak(lag, values[lag], refined));
  }

  lemma PositiveRoot(root: real, x: real)
    requires IsSqrt(root, x) && root != 0.0
    ensures root > 0.0
  {
  }

  /** When the target is a lossless delay within the range, the reported peak is a full one. */
  lemma DelayIsFound(source: seq<real>, target: seq<real>, maxLag: int, d: int, energy: real, peak: real, lag: int)
    requires DelayedBy(source, target, d) && -maxLag <= d <= maxLag
    requires energy > 0.0 && IsSqrt(energy, Energy(source) * Energy(target))
    requires peak == Cross(source, target, lag) / energy
    requires forall k :: -maxLag <= k <= maxLag ==> Abs(Cross(source, target, k) / energy) <= Abs(peak)
    ensures Abs(peak) == 1.0
  {
    DelayCorrelatesFully(source, target, d, energy);
    CoefficientInRange(source, target, lag, energy);
    assert Abs(Cross(source, target, d) / energy) <= Abs(peak);
  }
}
