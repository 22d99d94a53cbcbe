/** The direct cross-correlation of two real signals and what bounds it. */
module CrossCorrelation {

  /** Sample i, or silence outside the signal. */
  function Sample(s: seq<real>, i: int): real {
    if 0 <= i < |s| then s[i] else 0.0
  }

  /** The double loop's inner sum: source[i] * target[i + lag] over the overlap, first n terms. */
  function Overlap(source: seq<real>, target: seq<real>, lag: int, n: nat): real {
    if n == 0 then 0.0
    else Overlap(source, target, lag, n - 1) + Sample(source, n - 1) * Sample(target, n - 1 + lag)
  }

  function Cross(source: seq<real>, target: seq<real>, lag: int): real {
    Overlap(source, target, lag, |source|)
  }

  /** The energy of the first n samples seen from `lag` on. */
  function EnergyFrom(s: seq<real>, lag: int, n: nat): real {
    if n == 0 then 0.0 else EnergyFrom(s, lag, n - 1) + Sample(s, n - 1 + lag) * Sample(s, n - 1 + lag)
  }

  function Energy(s: seq<real>): real { EnergyFrom(s, 0, |s|) }

  predicate IsSqrt(root: real, x: real) { root >= 0.0 && root * root == x }

  function Abs(x: real): real { if x < 0.0 then -x else x }

  lemma {:induction false} EnergyNonNegative(s: seq<real>, lag: int, n: nat)
    ensures EnergyFrom(s, lag, n) >= 0.0
  {
    if n != 0 {
      EnergyNonNegative(s, lag, n - 1);
    }
  }

  lemma {:induction false} EnergyGrows(s: seq<real>, m: nat, n: nat)
    requires m <= n
    ensures EnergyFrom(s, 0, m) <= EnergyFrom(s, 0, n)
  {
    if m < n {
      EnergyGrows(s, m, n - 1);
    }
  }

  /** What a lag keeps of a signal never has more energy than the signal. */
  lemma {:induction false} ShiftLosesEnergy(s: seq<real>, lag: int, n: nat)
    ensures EnergyFrom(s, lag, n) <= EnergyFrom(s, 0, if n + lag < 0 then 0 else if n + lag > |s| then |s| else n + lag)
  {
    if n == 0 {
      EnergyNonNegative(s, 0, if lag < 0 then 0 else if lag > |s| then |s| else lag);
    } else {
      ShiftLosesEnergy(s, lag, n - 1);
    }
  }

  /** One step of Cauchy-Schwarz. */
  lemma CauchyStep(d: real, a: real, b: real, x: real, y: real)
    requires a >= 0.0 && b >= 0.0 && d * d <= a * b
    ensures (d + x * y) * (d + x * y) <= (a + x * x) * (b + y * y)
  {
    var cross := a * (y * y) + b * (x * x) - 2.0 * (d * (x * y));
    assert cross >= 0.0 by {
      if a == 0.0 {
        SquareNonPositive(d);
        NonNegativeProduct(b, x * x);
      } else {
        var t := a * y - d * x;
        NonNegativeProduct(x * x, a * b - d * d);
        assert a * cross == t * t + (x * x) * (a * b - d * d) by {
          CrossTimesA(d, a, b, x, y);
        }
        PositiveFactor(a, cross);
      }
    }
    CauchyExpand(d, a, b, x, y);
  }

  function Square(d: real): real { d * d }

  lemma SquareNonPositive(d: real)
    requires Square(d) <= 0.0
    ensures d == 0.0
  {
    hide Square;
    if d != 0.0 {
      PositiveSquare(d);
    }
  }

  lemma PositiveSquare(d: real)
    requires d != 0.0
    ensures Square(d) > 0.0
  {
    assert Square(d) / d == d;
  }

  lemma NonNegativeProduct(a: real, b: real)
    requires a >= 0.0 && b >= 0.0
    ensures a * b >= 0.0
  {
  }

  lemma PositiveFactor(a: real, c: real)
    requires a > 0.0 && a * c >= 0.0
    ensures c >= 0.0
  {
  }

  lemma CrossTimesA(d: real, a: real, b: real, x: real, y: real)
    ensures a * (a * (y * y) + b * (x * x) - 2.0 * (d * (x * y)))
         == (a * y - d * x) * (a * y - d * x) + (x * x) * (a * b - d * d)
  {
    var ay, dx := a * y, d * x;
    assert ay * ay == a * (a * (y * y)) && dx * dx == (x * x) * (d * d) && ay * dx == a * (d * (x * y));
    assert (ay - dx) * (ay - dx) == ay * ay - 2.0 * (ay * dx) + dx * dx;
    assert (x * x) * (a * b) == a * (b * (x * x));
  }

  lemma CauchyExpand(d: real, a: real, b: real, x: real, y: real)
    requires d * d <= a * b
    requires a * (y * y) + b * (x * x) - 2.0 * (d * (x * y)) >= 0.0
    ensures (d + x * y) * (d + x * y) <= (a + x * x) * (b + y * y)
  {
    var xy := x * y;
    assert (d + xy) * (d + xy) == d * d + 2.0 * (d * xy) + xy * xy;
    assert (a + x * x) * (b + y * y) == a * b + a * (y * y) + b * (x * x) + (x * x) * (y * y);
    assert (x * x) * (y * y) == xy * xy;
  }

  /** Cauchy-Schwarz over the truncated overlap. */
  lemma {:induction false} OverlapBounded(source: seq<real>, target: seq<real>, lag: int, n: nat)
    ensures Overlap(source, target, lag, n) * Overlap(source, target, lag, n)
         <= EnergyFrom(source, 0, n) * EnergyFrom(target, lag, n)
  {
    if n != 0 {
      OverlapBounded(source, target, lag, n - 1);
      EnergyNonNegative(source, 0, n - 1);
      EnergyNonNegative(target, lag, n - 1);
      var x, y := Sample(source, n - 1), Sample(target, n - 1 + lag);
      hide *;
      CauchyStep(Overlap(source, target, lag, n - 1), EnergyFrom(source, 0, n - 1), EnergyFrom(target, lag, n - 1), x, y);
      OverlapStep(source, target, lag, n);
    }
  }

  lemma OverlapStep(source: seq<real>, target: seq<real>, lag: int, n: nat)
    requires n > 0
    ensures var x, y := Sample(source, n - 1), Sample(target, n - 1 + lag);
      && Overlap(source, target, lag, n) == Overlap(source, target, lag, n - 1) + x * y
      && EnergyFrom(source, 0, n) == EnergyFrom(source, 0, n - 1) + x * x
      && EnergyFrom(target, lag, n) == EnergyFrom(target, lag, n - 1) + y * y
  {
  }

  /** Every correlation coefficient lies in -1..1. */
  lemma CoefficientInRange(source: seq<real>, target: seq<real>, lag: int, energy: real)
    requires energy > 0.0 && IsSqrt(energy, Energy(source) * Energy(target))
    ensures -1.0 <= Cross(source, target, lag) / energy <= 1.0
  {
    hide *;
    var c := Cross(source, target, lag);
    CrossBounded(source, target, lag);
    RootSquared(energy, Energy(source) * Energy(target));
    SquareBound(c, energy);
  }

  lemma RootSquared(root: real, x: real)
    requires IsSqrt(root, x)
    ensures root * root == x
  {
  }

  /** Cauchy-Schwarz over the overlap, against the energy of the whole frames. */
  lemma CrossBounded(source: seq<real>, target: seq<real>, lag: int)
    ensures Cross(source, target, lag) * Cross(source, target, lag) <= Energy(source) * Energy(target)
  {
    hide EnergyFrom, Overlap;
    var n := |source|;
    OverlapBounded(source, target, lag, n);
    ShiftLosesEnergy(target, lag, n);
    EnergyGrows(target, if n + lag < 0 then 0 else if n + lag > |target| then |target| else n + lag, |target|);
    EnergyNonNegative(source, 0, n);
    MulMono(Energy(source), EnergyFrom(target, lag, n), Energy(target));
  }

  lemma MulMono(a: real, x: real, y: real)
    requires a >= 0.0 && x <= y
    ensures a * x <= a * y
  {
  }

  lemma StrictSquare(e: real, c: real)
    requires 0.0 < e < c
    ensures e * e < c * c
  {
    assert e * e < e * c;
    assert e * c < c * c;
  }

  lemma SquareBound(c: real, e: real)
    requires e > 0.0 && c * c <= e * e
    ensures -1.0 <= c / e <= 1.0
  {
    if c > e {
      StrictSquare(e, c);
    } else if c < -e {
      StrictSquare(e, -c);
    }
    assert c / e <= 1.0 && c / e >= -1.0;
  }

  /** target is source delayed by d samples, and no nonzero sample of source leaves the frame. */
  ghost predicate DelayedBy(source: seq<real>, target: seq<real>, d: int) {
    && |target| == |source|
    && (forall j :: 0 <= j < |target| ==> target[j] == Sample(source, j - d))
    && (forall i :: 0 <= i < |source| && !(0 <= i + d < |source|) ==> source[i] == 0.0)
  }

  lemma {:induction false} OverlapOfDelay(source: seq<real>, target: seq<real>, d: int, n: nat)
    requires DelayedBy(source, target, d) && n <= |source|
    ensures Overlap(source, target, d, n) == EnergyFrom(source, 0, n)
  {
    if n != 0 {
      OverlapOfDelay(source, target, d, n - 1);
      assert Sample(target, n - 1 + d) == source[n - 1];
    }
  }

  /** The same energy, read from the target's side. */
  lemma {:induction false} EnergyOfDelay(source: seq<real>, target: seq<real>, d: int, n: nat)
    requires DelayedBy(source, target, d) && n <= |source|
    ensures EnergyFrom(target, 0, n) == EnergyFrom(source, -d, n)
  {
    if n != 0 {
      EnergyOfDelay(source, target, d, n - 1);
    }
  }

  /** Nothing of source lies outside the window its delayed copy shows, so the window holds all its energy. */
  lemma {:induction false} WindowHoldsAll(source: seq<real>, d: int, n: nat)
    requires forall i :: 0 <= i < |source| && !(0 <= i + d < |source|) ==> source[i] == 0.0
    requires n <= |source|
    ensures EnergyFrom(source, -d, n) == EnergyFrom(source, 0, if n - d < 0 then 0 else if n - d > |source| then |source| else n - d)
  {
    if n == 0 {
      ZeroPrefix(source, if -d < 0 then 0 else if -d > |source| then |source| else -d);
    } else {
      WindowHoldsAll(source, d, n - 1);
    }
  }

  lemma {:induction false} ZeroPrefix(source: seq<real>, n: nat)
    requires n <= |source| && forall i :: 0 <= i < n ==> source[i] == 0.0
    ensures EnergyFrom(source, 0, n) == 0.0
  {
    if n != 0 {
      ZeroPrefix(source, n - 1);
    }
  }

  lemma {:induction false} ZeroSuffix(source: seq<real>, m: nat, n: nat)
    requires m <= n <= |source| && forall i :: m <= i < n ==> source[i] == 0.0
    ensures EnergyFrom(source, 0, m) == EnergyFrom(source, 0, n)
  {
    if m < n {
      ZeroSuffix(source, m, n - 1);
    }
  }

  /** A lossless delay correlates perfectly at its own lag. */
  lemma DelayCorrelatesFully(source: seq<real>, target: seq<real>, d: int, energy: real)
    requires DelayedBy(source, target, d)
    requires energy > 0.0 && IsSqrt(energy, Energy(source) * Energy(target))
    ensures Cross(source, target, d) / energy == 1.0
  {
    var n := |source|;
    OverlapOfDelay(source, target, d, n);
    EnergyOfDelay(source, target, d, n);
    WindowHoldsAll(source, d, n);
    var m := if n - d < 0 then 0 else if n - d > n then n else n - d;
    ZeroSuffix(source, m, n);
    EnergyNonNegative(source, 0, n);
    RootIsUnique(energy, Energy(source));
    DivideBySelf(energy);
  }

  lemma RootIsUnique(a: real, b: real)
    requires a > 0.0 && b >= 0.0 && a * a == b * b
    ensures a == b
  {
    if a < b {
      StrictSquare(a, b);
    } else if 0.0 < b < a {
      StrictSquare(b, a);
    } else if b == 0.0 {
      PositiveSquare(a);
    }
  }

  lemma DivideBySelf(a: real)
    requires a > 0.0
    ensures a / a == 1.0
  {
  }
}
