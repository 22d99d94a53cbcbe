/** The in-place radix-2 transform: bit-reversed order, then butterflies over blocks of doubling size. */
module InPlaceFft {
  import opened Bits
  import opened ComplexNumbers
  import opened Dft
  import opened Wrappers

  datatype FftError = NotPowerOfTwo

  /** A finite list as samples: zero beyond its end. */
  function At(s: seq<Complex>): Samples {
    (m: nat) => if m < |s| then s[m] else Zero
  }

  // ---- the bit-reversed counter ----

  /** One carry of the reversed counter: an odd count clears the top bit, an even one sets it. */
  lemma RevCarry(p: nat, b: nat)
    requires b > 0 && p + 1 < Pow2(b)
    ensures Rev(p, b) >= Pow2(b - 1) <==> p % 2 == 1
    ensures p % 2 == 1 ==> b > 1 && p / 2 + 1 < Pow2(b - 1)
    ensures p % 2 == 1 ==> Rev(p, b) - Pow2(b - 1) == Rev(p / 2, b - 1)
    ensures p % 2 == 1 ==> Rev(p + 1, b) == Rev(p / 2 + 1, b - 1)
    ensures p % 2 == 0 ==> Rev(p + 1, b) == Rev(p, b) + Pow2(b - 1)
  {
    assert Pow2(b) == 2 * Pow2(b - 1);
    if p % 2 == 1 {
      assert (p + 1) % 2 == 0 && (p + 1) / 2 == p / 2 + 1;
    } else {
      assert (p + 1) % 2 == 1 && (p + 1) / 2 == p / 2;
    }
  }

  /** The next value of a bit-reversed counter: clear set bits from the top, then set the first clear one. */
  method NextReversed(i: nat, n: nat, ghost k: nat, before: nat) returns (j: nat)
    requires n == Pow2(k) && 0 < i < n
    requires before == Rev(i - 1, k)
    ensures j == Rev(i, k)
  {
    hide Rev, BitAnd, BitOr, BitXor;
    j := before;
    var bit := n / 2;
    ghost var p: nat, b: nat := i - 1, k;
    assert k > 0;
    while BitAnd(j, bit) != 0
      invariant 0 < b <= k && bit == Pow2(b - 1)
      invariant p + 1 < Pow2(b) && j == Rev(p, b)
      invariant Rev(i, k) == Rev(p + 1, b)
      decreases b
    {
      TopBit(j, b - 1);
      RevCarry(p, b);
      j := BitXor(j, bit);
      bit := bit / 2;
      p, b := p / 2, b - 1;
    }
    TopBit(j, b - 1);
    RevCarry(p, b);
    j := BitOr(j, bit);
  }

  /** Where element m of the list comes from once the counter has passed i. */
  ghost function SwappedFrom(m: nat, k: nat, i: nat): nat {
    if m < i || Rev(m, k) < i then Rev(m, k) else m
  }

  lemma SwappedFromNext(m: nat, k: nat, i: nat)
    requires m < Pow2(k)
    ensures SwappedFrom(m, k, i) < Pow2(k)
    ensures i < Pow2(k) ==> var j := Rev(i, k);
      SwappedFrom(m, k, i + 1) ==
        if i < j && m == i then SwappedFrom(j, k, i)
        else if i < j && m == j then SwappedFrom(i, k, i)
        else SwappedFrom(m, k, i)
  {
    hide Rev;
    RevInvolution(m, k);
    if i < Pow2(k) {
      RevInvolution(i, k);
    }
  }

  /** The list once every index below i has been looked at. */
  ghost predicate SwappedUpTo(a: seq<Complex>, was: seq<Complex>, k: nat, i: nat) {
    && |a| == |was| == Pow2(k)
    && forall m :: 0 <= m < |a| ==> SwappedFrom(m, k, i) < |a| && a[m] == was[SwappedFrom(m, k, i)]
  }

  /** One turn of the loop: exchange i with its reversal, unless that was done earlier. */
  lemma SwapAdvances(a: seq<Complex>, was: seq<Complex>, k: nat, i: nat)
    requires SwappedUpTo(a, was, k, i) && i < |a|
    ensures var j := Rev(i, k);
      j < |a| && SwappedUpTo(if i < j then a[i := a[j]][j := a[i]] else a, was, k, i + 1)
  {
    hide Rev, SwappedFrom;
    var j, next := Rev(i, k), i + 1;
    var b := if i < j then a[i := a[j]][j := a[i]] else a;
    forall m | 0 <= m < |a|
      ensures SwappedFrom(m, k, next) < |a| && b[m] == was[SwappedFrom(m, k, next)]
    {
      SwappedFromNext(m, k, i);
      SwappedFromNext(m, k, next);
    }
  }

  lemma SwapStarts(a: seq<Complex>, k: nat)
    requires |a| == Pow2(k)
    ensures SwappedUpTo(a, a, k, 1)
  {
    hide Rev;
    RevOfZero(k);
    forall m | 0 <= m < |a| ensures SwappedFrom(m, k, 1) == m {
      RevInvolution(m, k);
    }
  }

  lemma SwapEnds(a: seq<Complex>, was: seq<Complex>, k: nat)
    requires SwappedUpTo(a, was, k, |a|)
    ensures |a| == |was| == Pow2(k)
    ensures forall m :: 0 <= m < |a| ==> a[m] == was[Rev(m, k)]
  {
    hide Rev;
  }

  method BitReverse(a: array<Complex>, ghost k: nat)
    requires a.Length == Pow2(k)
    modifies a
    ensures forall m :: 0 <= m < a.Length ==> a[m] == old(a[..])[Rev(m, k)]
  {
    hide Rev, SwappedUpTo;
    var n := a.Length;
    var j := 0;
    RevOfZero(k);
    ghost var was := a[..];
    SwapStarts(was, k);
    for i := 1 to n
      invariant j == Rev(i - 1, k)
      invariant SwappedUpTo(a[..], was, k, i)
    {
      j := NextReversed(i, n, k, j);
      ghost var before := a[..];
      if i < j {
        a[i], a[j] := a[j], a[i];
        assert a[..] == before[i := before[j]][j := before[i]];
      }
      SwapAdvances(before, was, k, i);
    }
    SwapEnds(a[..], was, k);
  }

  lemma {:induction false} RevOfZero(k: nat)
    ensures Rev(0, k) == 0
  {
    if k != 0 {
      RevOfZero(k - 1);
    }
  }

  // ---- what each stage holds ----

  function Strided(x: Samples, offset: nat, stride: nat): Samples {
    (m: nat) => x(offset + m * stride)
  }

  /** Which block of `size` elements i is in, and where in it. */
  function Block(i: nat, size: nat): nat
    requires size > 0
  {
    i / size
  }

  function Place(i: nat, size: nat): nat
    requires size > 0
  {
    i % size
  }

  /** Element i after the stage with blocks of Pow2(l): one coefficient of a decimated transform. */
  ghost function Stage(x: Samples, v: nat -> Complex, k: nat, l: nat, i: nat): Complex
    requires l <= k
  {
    Eval(Strided(x, Rev(Block(i, Pow2(l)), k - l), Pow2(k - l)), Pow2(l), Pow(v(Pow2(l)), Place(i, Pow2(l))))
  }

  lemma StageFirst(x: Samples, v: nat -> Complex, k: nat, i: nat)
    requires i < Pow2(k)
    ensures Stage(x, v, k, 0, i) == x(Rev(i, k))
  {
    hide Mul, Pow, Eval, Rev;
    var s := Strided(x, Rev(i, k), Pow2(k));
    assert Block(i, 1) == i;
    assert Pow2(0) == 1;
    EvalOne(s, Pow(v(1), Place(i, 1)));
    assert s(0) == x(Rev(i, k) + 0 * Pow2(k));
  }

  lemma StageLast(x: Samples, v: nat -> Complex, k: nat, i: nat)
    requires i < Pow2(k)
    ensures Stage(x, v, k, k, i) == Transform(x, Pow2(k), v(Pow2(k)), i)
  {
    hide Mul, Pow, Eval, Transform;
    var n := Pow2(k);
    BlockOf(0, i, n);
    assert Rev(0, 0) == 0 && Pow2(0) == 1;
    var s := Strided(x, 0, 1);
    forall m: nat | m < n ensures s(m) == x(m) {
      assert s(m) == x(0 + m * 1);
    }
    EvalEq(s, x, n, Pow(v(n), i));
    TransformIsEval(x, n, v(n), i);
  }

  lemma BlockOf(b: nat, j: nat, size: nat)
    requires j < size
    ensures b * size >= 0 && Block(b * size + j, size) == b && Place(b * size + j, size) == j
  {
    TimesMono(0, b, size);
    var i := b * size + j;
    QuotientIsUnique(i / size, i % size, b, j, size);
  }

  lemma QuotientIsUnique(q: nat, r: nat, b: nat, j: nat, size: nat)
    requires r < size && j < size && q * size + r == b * size + j
    ensures q == b && r == j
  {
    assert (b + 1) * size == b * size + size;
    assert (q + 1) * size == q * size + size;
    if q > b {
      TimesMono(b + 1, q, size);
    } else if q < b {
      TimesMono(q + 1, b, size);
    }
  }

  /** The samples of a block split into the samples of its two half-size blocks. */
  lemma StridedHalves(x: Samples, b: nat, c: nat)
    requires c > 0
    ensures forall m: nat ::
      && Strided(x, Rev(2 * b, c), Pow2(c))(m) == Strided(x, Rev(b, c - 1), Pow2(c - 1))(2 * m)
      && Strided(x, Rev(2 * b + 1, c), Pow2(c))(m) == Strided(x, Rev(b, c - 1), Pow2(c - 1))(2 * m + 1)
  {
    var s := Pow2(c - 1);
    var off := Rev(b, c - 1);
    assert (2 * b) / 2 == b && (2 * b + 1) / 2 == b;
    assert Pow2(c) == 2 * s && Rev(2 * b, c) == off && Rev(2 * b + 1, c) == s + off;
    forall m: nat
      ensures Strided(x, Rev(2 * b, c), Pow2(c))(m) == Strided(x, off, s)(2 * m)
      ensures Strided(x, Rev(2 * b + 1, c), Pow2(c))(m) == Strided(x, off, s)(2 * m + 1)
    {
      assert off + m * (2 * s) == off + (2 * m) * s;
      assert s + off + m * (2 * s) == off + (2 * m + 1) * s;
    }
  }

  /** A butterfly on the two halves of block b turns stage l into stage l + 1. */
  lemma StageStep(x: Samples, v: nat -> Complex, k: nat, l: nat, b: nat, j: nat)
    requires RootFamily(v) && l < k && j < Pow2(l)
    ensures var i0 := b * Pow2(l + 1) + j;
      var i1 := i0 + Pow2(l);
      var turned := Mul(Stage(x, v, k, l, i1), Pow(v(Pow2(l + 1)), j));
      && Stage(x, v, k, l + 1, i0) == Add(Stage(x, v, k, l, i0), turned)
      && Stage(x, v, k, l + 1, i1) == Sub(Stage(x, v, k, l, i0), turned)
  {
    hide Mul, Pow, Eval, Add, Sub, RootFamily, Strided, Block, Place;
    var h, c := Pow2(l), k - l;
    var size := 2 * h;
    assert Pow2(l + 1) == size;
    TimesMono(0, b, size);
    StepIndices(b, j, h);
    var r := v(size);
    var whole := Strided(x, Rev(b, c - 1), Pow2(c - 1));
    var even := Strided(x, Rev(2 * b, c), Pow2(c));
    var odd := Strided(x, Rev(2 * b + 1, c), Pow2(c));
    StridedHalves(x, b, c);
    RootTurns(v, l + 1);
    Butterfly(whole, even, odd, h, r, j);
    RootSquare(v, l, j);
    MulComm(Pow(r, j), Eval(odd, h, Pow(Mul(r, r), j)));
  }

  lemma StepIndices(b: nat, j: nat, h: nat)
    requires j < h && b * (2 * h) >= 0
    ensures var i0 := b * (2 * h) + j;
      && Block(i0, h) == 2 * b && Place(i0, h) == j
      && Block(i0 + h, h) == 2 * b + 1 && Place(i0 + h, h) == j
      && Block(i0, 2 * h) == b && Place(i0, 2 * h) == j
      && Block(i0 + h, 2 * h) == b && Place(i0 + h, 2 * h) == h + j
  {
    hide Block, Place;
    HalfBlocks(b, h);
    BlockOf(2 * b, j, h);
    BlockOf(2 * b + 1, j, h);
    BlockOf(b, j, 2 * h);
    BlockOf(b, h + j, 2 * h);
  }

  lemma HalfBlocks(b: nat, h: nat)
    ensures b * (2 * h) == (2 * b) * h && (2 * b + 1) * h == (2 * b) * h + h
  {
  }

  lemma RootSquare(v: nat -> Complex, l: nat, j: nat)
    requires RootFamily(v) && j < Pow2(l)
    ensures Pow(Mul(v(Pow2(l + 1)), v(Pow2(l + 1))), j) == Pow(v(Pow2(l)), j)
  {
    hide Mul;
  }

  // ---- the butterflies in place ----

  ghost predicate Done(i: nat, start: nat, half: nat, j: nat) {
    i < start || start <= i < start + j || start + half <= i < start + half + j
  }

  /** Stage l + 1 where the butterflies are done, stage l where they are not. */
  ghost predicate Between(a: seq<Complex>, x: Samples, v: nat -> Complex, k: nat, l: nat, start: nat, j: nat)
    requires l < k
  {
    forall i :: 0 <= i < |a| ==>
      a[i] == Stage(x, v, k, if Done(i, start, Pow2(l), j) then l + 1 else l, i)
  }

  method ButterflyBlock(a: array<Complex>, start: nat, half: nat, twiddles: seq<Complex>,
                        ghost x: Samples, ghost v: nat -> Complex, ghost k: nat, ghost l: nat, ghost b: nat)
    requires RootFamily(v) && l < k && half == Pow2(l) == |twiddles|
    requires forall t :: 0 <= t < half ==> twiddles[t] == Pow(v(2 * half), t)
    requires start == b * (2 * half) && start + 2 * half <= a.Length
    requires Between(a[..], x, v, k, l, start, 0)
    modifies a
    ensures Between(a[..], x, v, k, l, start + 2 * half, 0)
  {
    hide Stage, RootFamily, Mul, Pow, Add, Sub;
    assert Pow2(l + 1) == 2 * half;
    for j := 0 to half
      invariant Between(a[..], x, v, k, l, start, j)
    {
      var u := a[start + j];
      var turned := Mul(a[start + j + half], twiddles[j]);
      StageStep(x, v, k, l, b, j);
      ghost var was := a[..];
      a[start + j] := Add(u, turned);
      a[start + j + half] := Sub(u, turned);
      assert a[..] == was[start + j := Add(u, turned)][start + j + half := Sub(u, turned)];
    }
  }

  method ButterflyStage(a: array<Complex>, size: nat, twiddles: seq<Complex>,
                        ghost x: Samples, ghost v: nat -> Complex, ghost k: nat, ghost l: nat)
    requires RootFamily(v) && l < k && a.Length == Pow2(k) && size == Pow2(l + 1)
    requires |twiddles| == size / 2
    requires forall t :: 0 <= t < size / 2 ==> twiddles[t] == Pow(v(size), t)
    requires forall i :: 0 <= i < a.Length ==> a[i] == Stage(x, v, k, l, i)
    modifies a
    ensures forall i :: 0 <= i < a.Length ==> a[i] == Stage(x, v, k, l + 1, i)
  {
    hide Stage, RootFamily, Pow;
    var start := 0;
    ghost var b := 0;
    Pow2Add(l + 1, k - l - 1);
    while start < a.Length
      invariant start == b * size && b <= Pow2(k - l - 1)
      invariant start <= a.Length
      invariant Between(a[..], x, v, k, l, start, 0)
      decreases a.Length - start
    {
      BlockFits(b, size, Pow2(k - l - 1));
      ButterflyBlock(a, start, size / 2, twiddles, x, v, k, l, b);
      start := start + size;
      b := b + 1;
    }
  }

  lemma TimesMono(a: nat, b: nat, c: nat)
    requires a <= b
    ensures a * c <= b * c
  {
  }

  lemma BlockFits(b: nat, size: nat, blocks: nat)
    requires b * size < size * blocks
    ensures b < blocks && b * size + size <= size * blocks && (b + 1) * size == b * size + size
  {
    assert size * blocks == blocks * size;
    assert b < blocks by {
      if b >= blocks {
        TimesMono(blocks, b, size);
      }
    }
    TimesMono(b + 1, blocks, size);
  }

  method Butterflies(a: array<Complex>, invert: bool, w: nat -> Complex,
                     ghost x: Samples, ghost v: nat -> Complex, ghost k: nat)
    requires RootFamily(v) && a.Length == Pow2(k)
    requires forall s: nat :: v(s) == if invert then w(s) else Conj(w(s))
    requires forall i :: 0 <= i < a.Length ==> a[i] == Stage(x, v, k, 0, i)
    modifies a
    ensures forall i :: 0 <= i < a.Length ==> a[i] == Stage(x, v, k, k, i)
  {
    hide Stage, RootFamily, Pow;
    var n := a.Length;
    var size := 2;
    ghost var l := 0;
    while size <= n
      invariant l <= k && size == Pow2(l + 1)
      invariant forall i :: 0 <= i < n ==> a[i] == Stage(x, v, k, l, i)
      decreases k - l
    {
      assert Pow2(k + 1) == 2 * Pow2(k);
      var step := if invert then w(size) else Conj(w(size));
      var twiddles := seq(size / 2, (t: nat) => Pow(step, t));
      ButterflyStage(a, size, twiddles, x, v, k, l);
      size := size * 2;
      l := l + 1;
    }
    if l < k {
      Pow2Mono(l, k);
    }
  }

  /**
   * The transform of a list whose length is a power of two (or zero); the forward
   * direction turns by the conjugates of w, the inverse by w and divides by the length.
   */
  method Fft(values: seq<Complex>, invert: bool, w: nat -> Complex) returns (r: Result<seq<Complex>, FftError>)
    requires RootFamily(w)
    ensures r.Ok? <==> |values| == 0 || IsPow2(|values|)
    ensures r.Ok? ==> |r.value| == |values|
    ensures r.Ok? && !invert ==> forall t :: 0 <= t < |values| ==>
      r.value[t] == Transform(At(values), |values|, Conj(w(|values|)), t)
    ensures r.Ok? && invert ==> forall t :: 0 <= t < |values| ==>
      r.value[t] == Div(Transform(At(values), |values|, w(|values|), t), |values| as real)
  {
    hide Transform, RootFamily, Pow, Stage;
    var n := |values|;
    if n != 0 {
      PowerOfTwoTest(n);
    }
    if n != 0 && BitAnd(n, n - 1) != 0 {
      return Err(NotPowerOfTwo);
    }
    if n == 0 {
      return Ok([]);
    }
    ghost var k: nat :| n == Pow2(k);
    ghost var v: nat -> Complex := (s: nat) => if invert then w(s) else Conj(w(s));
    ghost var x := At(values);
    FamilyOf(w, invert, v);
    var a := new Complex[n](i requires 0 <= i < n => values[i]);
    BitReverse(a, k);
    forall i | 0 <= i < n ensures a[i] == Stage(x, v, k, 0, i) {
      StageFirst(x, v, k, i);
    }
    Butterflies(a, invert, w, x, v, k);
    forall i | 0 <= i < n ensures a[i] == Transform(x, n, v(n), i) {
      StageLast(x, v, k, i);
    }
    if invert {
      r := Ok(seq(n, i requires 0 <= i < n reads a => Div(a[i], n as real)));
    } else {
      r := Ok(a[..]);
    }
  }

  lemma FamilyOf(w: nat -> Complex, invert: bool, v: nat -> Complex)
    requires RootFamily(w)
    requires forall s: nat :: v(s) == if invert then w(s) else Conj(w(s))
    ensures RootFamily(v)
  {
    if invert {
      assert forall k: nat :: v(Pow2(k)) == w(Pow2(k));
    } else {
      ConjugateFamily(w, v);
    }
  }

  /** The inverse direction undoes the forward direction, exactly and at every index. */
  lemma {:induction false} InverseUndoesForward(w: nat -> Complex, x: seq<Complex>, forward: seq<Complex>, p: nat)
    requires RootFamily(w) && IsPow2(|x|) && |forward| == |x| && p < |x|
    requires forall t :: 0 <= t < |x| ==> forward[t] == Transform(At(x), |x|, Conj(w(|x|)), t)
    ensures Div(Transform(At(forward), |x|, w(|x|), p), |x| as real) == x[p]
  {
    hide Transform, RootFamily, Pow, Mul;
    var n := |x|;
    var k: nat :| n == Pow2(k);
    var v: nat -> Complex := (s: nat) => Conj(w(s));
    ConjugateFamily(w, v);
    forall j: nat | j > 0 ensures Mul(v(Pow2(j)), w(Pow2(j))) == One {
      RootInverse(w, j);
      MulComm(w(Pow2(j)), v(Pow2(j)));
    }
    var X := At(forward);
    forall t: nat | t < n ensures X(t) == Eval(At(x), n, Pow(v(n), t)) {
      TransformIsEval(At(x), n, v(n), t);
    }
    Inversion(v, w, k, v(n), w(n), At(x), X, p);
    TransformIsEval(X, n, w(n), p);
    DivUndoesScale(n as real, x[p]);
  }

  lemma DivUndoesScale(d: real, c: Complex)
    requires d != 0.0
    ensures Div(Mul(FromReal(d), c), d) == c
  {
  }
}
