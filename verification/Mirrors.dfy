/** Outputs declared to repeat another output's routes, and the routes they come to have. */
module Mirrors {
  import opened Wrappers
  import opened MixModel

  /** Target outputs and source outputs: one channel or one aligned pair each, of the same width. */
  datatype Mirror = Mirror(target: seq<int>, source: seq<int>)

  datatype MirrorError = TargetOfTwoMirrors | MirrorOfMirror | PartlyCovered | WritesAMirror

  predicate Shares(a: seq<int>, b: seq<int>) {
    exists c :: c in a && c in b
  }

  /** What parsing one mirror option guarantees. */
  predicate ParsedMirror(m: Mirror) {
    && ((|m.target| == 1 && |m.source| == 1) || (IsPair(m.target) && IsPair(m.source)))
    && !Shares(m.target, m.source)
  }

  ghost predicate AllParsed(mirrors: seq<Mirror>) {
    forall m :: m in mirrors ==> ParsedMirror(m)
  }

  ghost predicate IsTarget(mirrors: seq<Mirror>, channel: int) {
    exists m :: m in mirrors && channel in m.target
  }

  /** Every output is written by at most one mirror. */
  ghost predicate DistinctTargets(mirrors: seq<Mirror>) {
    forall i, j :: 0 <= i < j < |mirrors| ==> !Shares(mirrors[i].target, mirrors[j].target)
  }

  ghost predicate SourcesAreOriginals(mirrors: seq<Mirror>) {
    forall m :: m in mirrors ==> forall c :: c in m.source ==> !IsTarget(mirrors, c)
  }

  /** A route either writes exactly a mirror's source or does not touch it. */
  ghost predicate CoversSources(r: Route, mirrors: seq<Mirror>) {
    forall m :: m in mirrors && Shares(r.output, m.source) ==> r.output == m.source
  }

  ghost predicate AvoidsTargets(r: Route, mirrors: seq<Mirror>) {
    forall c :: c in r.output ==> !IsTarget(mirrors, c)
  }

  ghost predicate Expandable(routes: seq<Route>, mirrors: seq<Mirror>) {
    && DistinctTargets(mirrors)
    && SourcesAreOriginals(mirrors)
    && forall r :: r in routes ==> CoversSources(r, mirrors) && AvoidsTargets(r, mirrors)
  }

  /** A mirror's copy of a route: its own outputs, no volume of its own. */
  function Copy(r: Route, m: Mirror): Route {
    r.(name := r.name + "-mirror", output := m.target, volume := None, mirrorOf := m.source)
  }

  function CopiesOf(routes: seq<Route>, m: Mirror, n: nat): seq<Route>
    requires n <= |routes|
  {
    if n == 0 then []
    else CopiesOf(routes, m, n - 1) + if routes[n - 1].output == m.source then [Copy(routes[n - 1], m)] else []
  }

  function Expansion(routes: seq<Route>, mirrors: seq<Mirror>, n: nat): seq<Route>
    requires n <= |mirrors|
  {
    if n == 0 then routes
    else Expansion(routes, mirrors, n - 1) + CopiesOf(routes, mirrors[n - 1], |routes|)
  }

  /** Which outputs are claimed, and by which source. */
  method ClaimTargets(mirrors: seq<Mirror>) returns (r: Result<map<int, seq<int>>, MirrorError>)
    requires AllParsed(mirrors)
    ensures r.Ok? <==> DistinctTargets(mirrors)
    ensures r.Err? ==> r.error == TargetOfTwoMirrors
    ensures r.Ok? ==> forall c :: c in r.value <==> IsTarget(mirrors, c)
  {
    var claimed: map<int, seq<int>> := map[];
    for i := 0 to |mirrors|
      invariant forall c :: c in claimed <==> IsTarget(mirrors[..i], c)
      invariant DistinctTargets(mirrors[..i])
    {
      var m := mirrors[i];
      ghost var before := claimed;
      assert m in mirrors;
      for j := 0 to |m.target|
        invariant forall c :: c in claimed <==> c in before || c in m.target[..j]
        invariant forall c :: c in m.target[..j] ==> c !in before
      {
        var t := m.target[j];
        assert t !in m.target[..j];
        if m.target[j] in claimed {
          assert t in before;
          ghost var x :| x in mirrors[..i] && t in x.target;
          ghost var k :| 0 <= k < i && t in mirrors[k].target;
          assert Shares(mirrors[k].target, mirrors[i].target);
          return Err(TargetOfTwoMirrors);
        }
        claimed := claimed[m.target[j] := m.source];
      }
      TargetsStep(mirrors, i);
      assert m.target[..|m.target|] == m.target;
    }
    assert mirrors[..|mirrors|] == mirrors;
    r := Ok(claimed);
  }

  lemma TargetsStep(mirrors: seq<Mirror>, i: nat)
    requires i < |mirrors|
    ensures forall c :: IsTarget(mirrors[..i + 1], c) <==> IsTarget(mirrors[..i], c) || c in mirrors[i].target
    ensures DistinctTargets(mirrors[..i]) && (forall c :: c in mirrors[i].target ==> !IsTarget(mirrors[..i], c))
        ==> DistinctTargets(mirrors[..i + 1])
  {
    var front, all := mirrors[..i], mirrors[..i + 1];
    assert all == front + [mirrors[i]];
    forall c ensures IsTarget(all, c) <==> IsTarget(front, c) || c in mirrors[i].target {
      if IsTarget(all, c) {
        var m :| m in all && c in m.target;
        assert m in front || m == mirrors[i];
      }
      if IsTarget(front, c) {
        var m :| m in front && c in m.target;
        assert m in all;
      }
      assert mirrors[i] in all;
    }
    if DistinctTargets(front) && (forall c :: c in mirrors[i].target ==> !IsTarget(front, c)) {
      forall a, b | 0 <= a < b < |all| ensures !Shares(all[a].target, all[b].target) {
        assert all[a] == front[a];
        if b == i {
          forall c | c in all[a].target ensures c !in mirrors[i].target {
            assert front[a] in front;
            assert IsTarget(front, c);
          }
        } else {
          assert all[b] == front[b];
        }
      }
    }
  }

  /** Route k does not suit the mirrors, and every route before it does. */
  ghost predicate FirstUnfit(routes: seq<Route>, mirrors: seq<Mirror>, k: nat)
    requires k < |routes|
  {
    && !(CoversSources(routes[k], mirrors) && AvoidsTargets(routes[k], mirrors))
    && forall i :: 0 <= i < k ==> CoversSources(routes[i], mirrors) && AvoidsTargets(routes[i], mirrors)
  }

  /** Lengthen the route list by the copies every mirror asks for, or refuse. */
  method ExpandMirrors(routes: seq<Route>, mirrors: seq<Mirror>) returns (r: Result<seq<Route>, MirrorError>)
    requires AllWellFormed(routes) && AllParsed(mirrors)
    ensures r.Ok? <==> Expandable(routes, mirrors)
    ensures r.Err? && !DistinctTargets(mirrors) ==> r.error == TargetOfTwoMirrors
    ensures r.Err? && DistinctTargets(mirrors) && !SourcesAreOriginals(mirrors) ==> r.error == MirrorOfMirror
    ensures r.Err? && DistinctTargets(mirrors) && SourcesAreOriginals(mirrors) ==>
      exists k :: 0 <= k < |routes| && FirstUnfit(routes, mirrors, k)
        && r.error == if CoversSources(routes[k], mirrors) then WritesAMirror else PartlyCovered
    ensures r.Ok? ==> r.value == Expansion(routes, mirrors, |mirrors|)
  {
    if |mirrors| == 0 {
      NothingMirrored(routes, mirrors);
      return Ok(routes);
    }
    var claims := ClaimTargets(mirrors);
    if claims.Err? {
      return Err(claims.error);
    }
    var claimed := claims.value;
    for i := 0 to |mirrors|
      invariant forall k :: 0 <= k < i ==> forall c :: c in mirrors[k].source ==> !IsTarget(mirrors, c)
    {
      if exists c :: c in mirrors[i].source && c in claimed {
        assert mirrors[i] in mirrors;
        return Err(MirrorOfMirror);
      }
    }
    for i := 0 to |routes|
      invariant forall k :: 0 <= k < i ==> CoversSources(routes[k], mirrors) && AvoidsTargets(routes[k], mirrors)
    {
      assert routes[i] in routes;
      for j := 0 to |mirrors|
        invariant forall k :: 0 <= k < j && Shares(routes[i].output, mirrors[k].source) ==> routes[i].output == mirrors[k].source
      {
        if Shares(routes[i].output, mirrors[j].source) && routes[i].output != mirrors[j].source {
          assert mirrors[j] in mirrors;
          assert !CoversSources(routes[i], mirrors) && FirstUnfit(routes, mirrors, i);
          return Err(PartlyCovered);
        }
      }
      if exists c :: c in routes[i].output && c in claimed {
        assert CoversSources(routes[i], mirrors) && FirstUnfit(routes, mirrors, i);
        return Err(WritesAMirror);
      }
    }
    var expanded := routes;
    for i := 0 to |mirrors|
      invariant expanded == Expansion(routes, mirrors, i)
    {
      ghost var before := expanded;
      for j := 0 to |routes|
        invariant expanded == before + CopiesOf(routes, mirrors[i], j)
      {
        if routes[j].output == mirrors[i].source {
          expanded := expanded + [Copy(routes[j], mirrors[i])];
        }
      }
    }
    r := Ok(expanded);
  }

  lemma NothingMirrored(routes: seq<Route>, mirrors: seq<Mirror>)
    requires mirrors == []
    ensures Expandable(routes, mirrors)
  {
  }

  // ---- what an expansion is ----

  lemma {:induction false} CopiesMeaning(routes: seq<Route>, m: Mirror, n: nat, x: Route)
    requires n <= |routes|
    ensures x in CopiesOf(routes, m, n) <==> exists k :: 0 <= k < n && routes[k].output == m.source && x == Copy(routes[k], m)
  {
    if n != 0 {
      CopiesMeaning(routes, m, n - 1, x);
    }
  }

  /** x is a copy of a declared route of some mirror's source. */
  ghost predicate IsCopy(routes: seq<Route>, mirrors: seq<Mirror>, x: Route) {
    exists m, r :: m in mirrors && r in routes && r.output == m.source && x == Copy(r, m)
  }

  lemma {:induction false} ExpansionMeaning(routes: seq<Route>, mirrors: seq<Mirror>, n: nat, x: Route)
    requires n <= |mirrors|
    ensures x in Expansion(routes, mirrors, n) <==> x in routes || IsCopy(routes, mirrors[..n], x)
  {
    hide Copy, CopiesOf;
    if n == 0 {
    } else {
      ExpansionMeaning(routes, mirrors, n - 1, x);
      var m := mirrors[n - 1];
      CopiesMeaning(routes, m, |routes|, x);
      assert mirrors[..n] == mirrors[..n - 1] + [m];
      if IsCopy(routes, mirrors[..n], x) {
        var y, r :| y in mirrors[..n] && r in routes && r.output == y.source && x == Copy(r, y);
        assert y in mirrors[..n - 1] || y == m;
      }
      if IsCopy(routes, mirrors[..n - 1], x) {
        var y, r :| y in mirrors[..n - 1] && r in routes && r.output == y.source && x == Copy(r, y);
        assert y in mirrors[..n];
      }
      assert m in mirrors[..n];
    }
  }

  lemma CopyIsWellFormed(r: Route, m: Mirror)
    requires WellFormed(r) && ParsedMirror(m) && r.output == m.source
    ensures WellFormed(Copy(r, m))
    ensures LinkRequirements(Copy(r, m))[0] == LinkRequirements(r)[0]
    ensures LinkRequirements(Copy(r, m))[1] == LinkRequirements(r)[1].(channel := Odd(m.target[0]))
  {
  }

  lemma ExpansionIsWellFormed(routes: seq<Route>, mirrors: seq<Mirror>)
    requires AllWellFormed(routes) && AllParsed(mirrors)
    ensures AllWellFormed(Expansion(routes, mirrors, |mirrors|))
  {
    forall x | x in Expansion(routes, mirrors, |mirrors|) ensures WellFormed(x) {
      ExpansionMeaning(routes, mirrors, |mirrors|, x);
      assert mirrors[..|mirrors|] == mirrors;
      if x !in routes {
        var m, r :| m in mirrors && r in routes && r.output == m.source && x == Copy(r, m);
        CopyIsWellFormed(r, m);
      }
    }
  }

  /** What is on a mirror's target: the copies of its source's routes, and no other route. */
  lemma MirrorCarriesItsSource(routes: seq<Route>, mirrors: seq<Mirror>, m: Mirror, x: Route)
    requires AllWellFormed(routes) && AllParsed(mirrors) && Expandable(routes, mirrors)
    requires m in mirrors
    ensures x in Expansion(routes, mirrors, |mirrors|) && Shares(x.output, m.target) <==>
      exists r :: r in routes && r.output == m.source && x == Copy(r, m)
  {
    hide CoversSources, AvoidsTargets, DistinctTargets, SourcesAreOriginals, AllWellFormed, AllParsed, Shares, IsCopy, WellFormed;
    ExpansionMeaning(routes, mirrors, |mirrors|, x);
    assert mirrors[..|mirrors|] == mirrors;
    if x in routes {
      DeclaredAvoidsTarget(routes, mirrors, m, x);
    }
    if IsCopy(routes, mirrors, x) && Shares(x.output, m.target) {
      CopyOnTarget(routes, mirrors, m, x);
    }
    if r :| r in routes && r.output == m.source && x == Copy(r, m) {
      CopyIsOnTarget(routes, mirrors, m, r);
    }
  }

  lemma DeclaredAvoidsTarget(routes: seq<Route>, mirrors: seq<Mirror>, m: Mirror, x: Route)
    requires Expandable(routes, mirrors) && m in mirrors && x in routes
    ensures !Shares(x.output, m.target)
  {
    assert AvoidsTargets(x, mirrors);
    forall c | c in m.target ensures c !in x.output {
      assert IsTarget(mirrors, c);
    }
  }

  lemma CopyOnTarget(routes: seq<Route>, mirrors: seq<Mirror>, m: Mirror, x: Route)
    requires DistinctTargets(mirrors) && m in mirrors
    requires IsCopy(routes, mirrors, x) && Shares(x.output, m.target)
    ensures exists r :: r in routes && r.output == m.source && x == Copy(r, m)
  {
    var y, r :| y in mirrors && r in routes && r.output == y.source && x == Copy(r, y);
    var i :| 0 <= i < |mirrors| && mirrors[i] == y;
    var j :| 0 <= j < |mirrors| && mirrors[j] == m;
    SharesSymmetric(y.target, m.target);
    assert i == j;
  }

  lemma CopyIsOnTarget(routes: seq<Route>, mirrors: seq<Mirror>, m: Mirror, r: Route)
    requires AllParsed(mirrors) && m in mirrors && r in routes && r.output == m.source
    ensures IsCopy(routes, mirrors, Copy(r, m)) && Shares(Copy(r, m).output, m.target)
  {
    assert ParsedMirror(m);
    var c := m.target[0];
    assert c in m.target && c in Copy(r, m).output;
  }

  lemma SharesSymmetric(a: seq<int>, b: seq<int>)
    ensures Shares(a, b) <==> Shares(b, a)
  {
  }
}
