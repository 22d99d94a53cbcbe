/** The line through measured delays, and that no other line fits them better. */
module DelaySlope {
  import opened Wrappers

  datatype Point = Point(x: real, y: real)

  function Square(a: real): real {
    a * a
  }

  function Times(a: real, b: real): real {
    a * b
  }

  // Sums over the first n points

  function SumX(p: seq<Point>, n: nat): real
    requires n <= |p|
  {
    if n == 0 then 0.0 else SumX(p, n - 1) + p[n - 1].x
  }

  function SumY(p: seq<Point>, n: nat): real
    requires n <= |p|
  {
    if n == 0 then 0.0 else SumY(p, n - 1) + p[n - 1].y
  }

  /** The squared distances of the x from a centre. */
  function Spread(p: seq<Point>, n: nat, c: real): real
    requires n <= |p|
  {
    if n == 0 then 0.0 else Spread(p, n - 1, c) + Square(p[n - 1].x - c)
  }

  function Joint(p: seq<Point>, n: nat, c: real, d: real): real
    requires n <= |p|
  {
    if n == 0 then 0.0 else Joint(p, n - 1, c, d) + Times(p[n - 1].x - c, p[n - 1].y - d)
  }

  /** What a line misses the points by: the sum of its squared vertical distances. */
  function Misfit(p: seq<Point>, n: nat, slope: real, intercept: real): real
    requires n <= |p|
  {
    if n == 0 then 0.0 else Misfit(p, n - 1, slope, intercept) + Square(p[n - 1].y - slope * p[n - 1].x - intercept)
  }

  datatype Error = TooFew | NoSpread

  /** Slope and intercept of the least-squares line. */
  method Fit(points: seq<Point>) returns (line: Result<(real, real), Error>)
    ensures line == Err(TooFew) <==> |points| < 2
    ensures line == Err(NoSpread) <==> |points| >= 2 && forall k :: 0 <= k < |points| ==> points[k].x == points[0].x
    ensures line.Ok? ==> forall slope, intercept ::
      Misfit(points, |points|, line.value.0, line.value.1) <= Misfit(points, |points|, slope, intercept)
  {
    hide Square, Times, Misfit;
    if |points| < 2 {
      return Err(TooFew);
    }
    var n := |points|;
    var sumX, sumY := 0.0, 0.0;
    for i := 0 to n
      invariant sumX == SumX(points, i) && sumY == SumY(points, i)
    {
      sumX := sumX + points[i].x;
      sumY := sumY + points[i].y;
    }
    var meanX, meanY := sumX / n as real, sumY / n as real;
    var spread, joint := 0.0, 0.0;
    for i := 0 to n
      invariant spread == Spread(points, i, meanX) && joint == Joint(points, i, meanX, meanY)
    {
      spread := spread + Square(points[i].x - meanX);
      joint := joint + Times(points[i].x - meanX, points[i].y - meanY);
    }
    NoSpreadExactly(points, meanX);
    if spread == 0.0 {
      return Err(NoSpread);
    }
    var slope := joint / spread;
    forall a, b ensures Misfit(points, n, slope, meanY - slope * meanX) <= Misfit(points, n, a, b) {
      FitIsBest(points, meanX, meanY, slope, a, b);
    }
    line := Ok((slope, meanY - slope * meanX));
  }

  lemma {:induction false} SpreadIsPositive(p: seq<Point>, n: nat, c: real)
    requires n <= |p|
    ensures Spread(p, n, c) >= 0.0
    ensures Spread(p, n, c) == 0.0 <==> forall k :: 0 <= k < n ==> p[k].x == c
  {
    if n > 0 {
      SpreadIsPositive(p, n - 1, c);
      SquareIsPositive(p[n - 1].x - c);
    }
  }

  lemma SquareIsPositive(a: real)
    ensures Square(a) >= 0.0 && (Square(a) == 0.0 <==> a == 0.0)
  {
    if a != 0.0 {
      assert Square(a) / a == a;
    }
  }

  /** Equal x have no spread about their mean, others do. */
  lemma NoSpreadExactly(p: seq<Point>, mean: real)
    requires |p| >= 1 && mean == SumX(p, |p|) / |p| as real
    ensures Spread(p, |p|, mean) == 0.0 <==> forall k :: 0 <= k < |p| ==> p[k].x == p[0].x
  {
    SpreadIsPositive(p, |p|, mean);
    if forall k :: 0 <= k < |p| ==> p[k].x == p[0].x {
      SumOfEquals(p, |p|, p[0].x);
    }
  }

  lemma {:induction false} SumOfEquals(p: seq<Point>, n: nat, x: real)
    requires n <= |p| && forall k :: 0 <= k < n ==> p[k].x == x
    ensures SumX(p, n) == n as real * x
  {
    if n > 0 {
      SumOfEquals(p, n - 1, x);
      assert n as real * x == (n - 1) as real * x + x;
    }
  }

  /** How much two lines differ over the points, seen from a centre. */
  function Apart(p: seq<Point>, n: nat, c: real, da: real, db: real): real
    requires n <= |p|
  {
    if n == 0 then 0.0 else Apart(p, n - 1, c, da, db) + Square(da * (p[n - 1].x - c) + db)
  }

  lemma {:induction false} ApartIsPositive(p: seq<Point>, n: nat, c: real, da: real, db: real)
    requires n <= |p|
    ensures Apart(p, n, c, da, db) >= 0.0
  {
    if n > 0 {
      ApartIsPositive(p, n - 1, c, da, db);
      SquareIsPositive(da * (p[n - 1].x - c) + db);
    }
  }

  /** The deviations from the means that a line through the means leaves over. */
  function Left(p: seq<Point>, n: nat, c: real, d: real, slope: real): real
    requires n <= |p|
  {
    if n == 0 then 0.0 else Left(p, n - 1, c, d, slope) + (p[n - 1].y - d - slope * (p[n - 1].x - c))
  }

  /** The same, weighted by the distance from the centre. */
  function Weighed(p: seq<Point>, n: nat, c: real, d: real, slope: real): real
    requires n <= |p|
  {
    if n == 0 then 0.0 else Weighed(p, n - 1, c, d, slope) + Times(p[n - 1].x - c, p[n - 1].y - d - slope * (p[n - 1].x - c))
  }

  lemma OnePoint(x: real, y: real, c: real, d: real, slope: real, da: real, db: real)
    ensures var u, v := x - c, y - d - slope * (x - c);
      Square(y - (slope + da) * x - (d - slope * c + db - da * c))
      == Square(y - slope * x - (d - slope * c)) - Times(2.0 * da, Times(u, v)) - Times(2.0 * db, v) + Square(da * u + db)
  {
    var u, v := x - c, y - d - slope * (x - c);
    assert slope * (x - c) == slope * x - slope * c;
    assert da * (x - c) == da * x - da * c;
    assert (slope + da) * x == slope * x + da * x;
    assert y - slope * x - (d - slope * c) == v;
    var w := da * u + db;
    assert y - (slope + da) * x - (d - slope * c + db - da * c) == v - w;
    assert Square(v - w) == Square(v) - 2.0 * (w * v) + Square(w);
    assert w * v == (da * u) * v + db * v;
    assert (da * u) * v == da * (u * v);
  }

  /** The misfit of any line, from that of a line through the means. */
  lemma {:induction false} MisfitFrom(p: seq<Point>, n: nat, c: real, d: real, slope: real, da: real, db: real)
    requires n <= |p|
    ensures Misfit(p, n, slope + da, d - slope * c + db - da * c)
         == Misfit(p, n, slope, d - slope * c) - Times(2.0 * da, Weighed(p, n, c, d, slope)) - Times(2.0 * db, Left(p, n, c, d, slope)) + Apart(p, n, c, da, db)
  {
    hide Square, Times;
    Nothing(2.0 * da);
    Nothing(2.0 * db);
    if n > 0 {
      MisfitFrom(p, n - 1, c, d, slope, da, db);
      var x, y := p[n - 1].x, p[n - 1].y;
      OnePoint(x, y, c, d, slope, da, db);
      var v := y - d - slope * (x - c);
      Distribute(2.0 * da, Weighed(p, n - 1, c, d, slope), Times(x - c, v));
      Distribute(2.0 * db, Left(p, n - 1, c, d, slope), v);
    }
  }

  lemma Nothing(a: real)
    ensures Times(a, 0.0) == 0.0
  {
  }

  lemma Distribute(a: real, b: real, c: real)
    ensures Times(a, b + c) == Times(a, b) + Times(a, c)
  {
  }

  lemma {:induction false} LeftIs(p: seq<Point>, n: nat, c: real, d: real, slope: real)
    requires n <= |p|
    ensures Left(p, n, c, d, slope) == SumY(p, n) - n as real * d - Times(slope, SumX(p, n) - n as real * c)
  {
    Nothing(slope);
    if n > 0 {
      LeftIs(p, n - 1, c, d, slope);
      Distribute(slope, SumX(p, n - 1) - (n - 1) as real * c, p[n - 1].x - c);
      OneMore(n, c);
      OneMore(n, d);
    }
  }

  lemma OneMore(n: nat, c: real)
    requires n > 0
    ensures n as real * c == (n - 1) as real * c + c
  {
  }

  lemma {:induction false} WeighedIs(p: seq<Point>, n: nat, c: real, d: real, slope: real)
    requires n <= |p|
    ensures Weighed(p, n, c, d, slope) == Joint(p, n, c, d) - Times(slope, Spread(p, n, c))
  {
    hide Times, Square;
    Nothing(slope);
    if n > 0 {
      WeighedIs(p, n - 1, c, d, slope);
      OneWeighed(p[n - 1].x, p[n - 1].y, c, d, slope);
      Distribute(slope, Spread(p, n - 1, c), Square(p[n - 1].x - c));
    }
  }

  lemma OneWeighed(x: real, y: real, c: real, d: real, slope: real)
    ensures Times(x - c, y - d - slope * (x - c)) == Times(x - c, y - d) - Times(slope, Square(x - c))
  {
    var u, v := x - c, y - d;
    assert u * (v - slope * u) == u * v - u * (slope * u);
  }

  /** No line misses the points by less than the least-squares one. */
  lemma FitIsBest(p: seq<Point>, meanX: real, meanY: real, slope: real, a: real, b: real)
    requires |p| >= 1 && meanX == SumX(p, |p|) / |p| as real && meanY == SumY(p, |p|) / |p| as real
    requires Spread(p, |p|, meanX) != 0.0 && slope == Joint(p, |p|, meanX, meanY) / Spread(p, |p|, meanX)
    ensures Misfit(p, |p|, slope, meanY - slope * meanX) <= Misfit(p, |p|, a, b)
  {
    hide Misfit, Apart, Left, Weighed, Joint, Spread, SumX, SumY, Times;
    var n := |p|;
    var da := a - slope;
    var db := b - (meanY - slope * meanX) + da * meanX;
    MisfitFrom(p, n, meanX, meanY, slope, da, db);
    LeftIs(p, n, meanX, meanY, slope);
    WeighedIs(p, n, meanX, meanY, slope);
    ApartIsPositive(p, n, meanX, da, db);
    Nothing(slope);
    Nothing(2.0 * da);
    Nothing(2.0 * db);
    TimesQuotient(Joint(p, n, meanX, meanY), Spread(p, n, meanX));
    assert n as real * meanX == SumX(p, n) && n as real * meanY == SumY(p, n);
    assert slope + da == a && meanY - slope * meanX + db - da * meanX == b;
  }

  lemma TimesQuotient(a: real, b: real)
    requires b != 0.0
    ensures Times(a / b, b) == a
  {
  }
}
