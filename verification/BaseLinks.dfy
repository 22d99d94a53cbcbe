/** Which pairs a base links, and when their two channels are set alike. */
module BaseLinks {
  import opened Wrappers
  import opened MixModel
  import opened Base
  import opened Mirrors
  import opened BaseRoutes

  /** Linked by the desk with its base, and not by the desk without it. */
  ghost predicate NewlyLinked(routes: seq<Route>, added: seq<Route>, mirrors: seq<Mirror>, family: Family, channel: int)
    requires AllWellFormed(Expansion(routes, mirrors, |mirrors|))
    requires AllWellFormed(Expansion(routes + added, mirrors, |mirrors|))
  {
    && Requires(Expansion(routes + added, mirrors, |mirrors|), Link(family, channel, true))
    && !Requires(Expansion(routes, mirrors, |mirrors|), Link(family, channel, true))
  }

  /** The base, not the desk, links this output pair. */
  ghost predicate BaseLinksOutput(routes: seq<Route>, added: seq<Route>, left: int)
    requires AllWellFormed(routes) && AllWellFormed(added)
  {
    Requires(added, Link(Output, left, true)) && (Output, left) !in LinksOf(routes, |routes|)
  }

  /** A pair mirror whose entry in the target table a later mirror of the same source replaced. */
  ghost predicate Shadowed(mirrors: seq<Mirror>, m: Mirror)
    requires AllParsed(mirrors)
  {
    && m in mirrors && |m.source| == 2 && |m.target| == 2
    && m.source[0] in TargetsOf(mirrors, |mirrors|) && TargetsOf(mirrors, |mirrors|)[m.source[0]] != m.target[0]
  }

  lemma {:induction false} TableHasSource(mirrors: seq<Mirror>, n: nat, m: Mirror)
    requires n <= |mirrors| && AllParsed(mirrors) && m in mirrors[..n] && |m.source| == 2
    ensures m.source[0] in TargetsOf(mirrors, n)
  {
    if mirrors[n - 1] != m {
      assert m in mirrors[..n - 1];
      TableHasSource(mirrors, n - 1, m);
    }
  }

  lemma DeclaredIsExpanded(routes: seq<Route>, mirrors: seq<Mirror>, l: Link)
    requires AllWellFormed(routes) && AllWellFormed(Expansion(routes, mirrors, |mirrors|))
    requires Requires(routes, l)
    ensures Requires(Expansion(routes, mirrors, |mirrors|), l)
  {
    var r :| r in routes && l in LinkRequirements(r);
    ExpansionMeaning(routes, mirrors, |mirrors|, r);
  }

  /** A mirror of a linked pair links its target pair. */
  lemma CopyLinksTarget(routes: seq<Route>, mirrors: seq<Mirror>, m: Mirror, r: Route)
    requires AllWellFormed(routes) && AllParsed(mirrors) && AllWellFormed(Expansion(routes, mirrors, |mirrors|))
    requires m in mirrors && r in routes && r.output == m.source && LinkRequirements(r)[1].linked
    ensures Requires(Expansion(routes, mirrors, |mirrors|), Link(Output, m.target[0], true))
  {
    hide Expansion;
    assert ParsedMirror(m);
    CopyIsWellFormed(r, m);
    RequirementFamilies(r);
    var x := Copy(r, m);
    assert IsCopy(routes, mirrors, x);
    assert mirrors[..|mirrors|] == mirrors;
    ExpansionMeaning(routes, mirrors, |mirrors|, x);
    var l := LinkRequirements(x)[1];
    assert l in LinkRequirements(x);
    assert l == Link(Output, m.target[0], true);
  }

  /** A route that links output pair `left` writes exactly that pair. */
  lemma LinkingRouteCoversPair(r: Route, left: int)
    requires WellFormed(r) && Link(Output, left, true) in LinkRequirements(r)
    ensures r.output == [left, left + 1] && left % 2 == 1 && LinkRequirements(r)[1] == Link(Output, left, true)
  {
  }

  /** Everything the base links newly, other than through a shadowed mirror, was checked to be set alike. */
  lemma NewLinkIsAlikeOrShadowed(routes: seq<Route>, settings: seq<Setting>, mirrors: seq<Mirror>, device: Device, added: seq<Route>,
                                 f: Family, c: int)
    requires AllWellFormed(routes) && AllParsed(mirrors) && LinkConsistent(routes) && Expandable(routes, mirrors)
    requires AcceptedBase(routes, settings, mirrors, device, added) && AllWellFormed(added)
    requires AllWellFormed(Expansion(routes, mirrors, |mirrors|)) && AllWellFormed(Expansion(routes + added, mirrors, |mirrors|))
    requires NewlyLinked(routes, added, mirrors, f, c)
    ensures SetAlike(settings, f, c)
         || (f == Output && exists m :: Shadowed(mirrors, m) && m.target[0] == c && BaseLinksOutput(routes, added, m.source[0]))
  {
    hide AcceptedBase, Requires, Expansion, Expandable, LinksOf, SetAlike, WellFormed, ParsedMirror, CopiedBy;
    var l := Link(f, c, true);
    DeskWide(routes, settings, mirrors, device, added);
    ExpandedRequirement(routes + added, mirrors, l);
    if Requires(routes + added, l) {
      RequiresOfSum(routes, added, l);
      if Requires(routes, l) {
        DeclaredIsExpanded(routes, mirrors, l);
      } else {
        AddedRequires(routes, settings, mirrors, device, added, l);
        if (f, c) in LinksOf(routes, |routes|) {
          DeclaredMeansRequired(routes, f, c);
        }
      }
    } else {
      var m, r :| m in mirrors && CopiedBy(routes + added, m, r, l);
      NewCopy(routes, settings, mirrors, device, added, m, r, c);
    }
  }

  lemma DeclaredMeansRequired(routes: seq<Route>, f: Family, c: int)
    requires AllWellFormed(routes) && LinkConsistent(routes) && (f, c) in LinksOf(routes, |routes|)
    ensures Requires(routes, Link(f, c, LinksOf(routes, |routes|)[(f, c)]))
  {
    LinksOfMeaning(routes, |routes|, f, c);
    assert routes[..|routes|] == routes;
  }

  lemma NewCopy(routes: seq<Route>, settings: seq<Setting>, mirrors: seq<Mirror>, device: Device, added: seq<Route>,
                m: Mirror, r: Route, c: int)
    requires AllWellFormed(routes) && AllParsed(mirrors) && LinkConsistent(routes) && AllWellFormed(added)
    requires AllWellFormed(routes + added) && Expandable(routes + added, mirrors)
    requires AcceptedBase(routes, settings, mirrors, device, added)
    requires AllWellFormed(Expansion(routes, mirrors, |mirrors|))
    requires !Requires(Expansion(routes, mirrors, |mirrors|), Link(Output, c, true))
    requires m in mirrors && CopiedBy(routes + added, m, r, Link(Output, c, true))
    ensures SetAlike(settings, Output, c)
         || (Shadowed(mirrors, m) && m.target[0] == c && BaseLinksOutput(routes, added, m.source[0]))
  {
    hide AcceptedBase, Requires, Expansion, Expandable, LinksOf, SetAlike, WellFormed, LinkRequirements, TargetsOf, RoutesAt;
    LinkedCopyOwnsItsPair(routes + added, mirrors, m, r, c);
    var left := m.source[0];
    if r in routes {
      CopyLinksTarget(routes, mirrors, m, r);
    }
    RequirementFamilies(r);
    var l := LinkRequirements(r)[1];
    assert l in LinkRequirements(r) && l == Link(Output, left, true);
    RequiredBy(added, r, l);
    if (Output, left) in LinksOf(routes, |routes|) {
      AddedRequires(routes, settings, mirrors, device, added, l);
      DeclaredMeansRequired(routes, Output, left);
      DeclaredLinkCopied(routes, mirrors, m);
    }
    assert mirrors[..|mirrors|] == mirrors;
    TableHasSource(mirrors, |mirrors|, m);
    if TargetsOf(mirrors, |mirrors|)[left] == m.target[0] {
      var at := AddedPair(routes, settings, mirrors, device, added, r);
      RoutesAtAccepted(ContextOf(routes, settings, mirrors, device), at, r);
    }
  }

  lemma RequiredBy(routes: seq<Route>, r: Route, l: Link)
    requires AllWellFormed(routes) && r in routes && l in LinkRequirements(r)
    ensures Requires(routes, l)
  {
  }

  /** If the desk itself links a mirrored source pair, its own expansion links the target pair. */
  lemma DeclaredLinkCopied(routes: seq<Route>, mirrors: seq<Mirror>, m: Mirror)
    requires AllWellFormed(routes) && AllParsed(mirrors) && AllWellFormed(Expansion(routes, mirrors, |mirrors|))
    requires m in mirrors && IsPair(m.source) && Requires(routes, Link(Output, m.source[0], true))
    ensures Requires(Expansion(routes, mirrors, |mirrors|), Link(Output, m.target[0], true))
  {
    hide Expansion;
    var x :| x in routes && Link(Output, m.source[0], true) in LinkRequirements(x);
    LinkingRouteCoversPair(x, m.source[0]);
    CopyLinksTarget(routes, mirrors, m, x);
  }

  /** A mirror of a pair the base links has its target linked newly. */
  lemma ShadowedTargetIsNewlyLinked(routes: seq<Route>, settings: seq<Setting>, mirrors: seq<Mirror>, device: Device,
                                    added: seq<Route>, m: Mirror)
    requires AllWellFormed(routes) && AllParsed(mirrors) && LinkConsistent(routes) && Expandable(routes, mirrors)
    requires AcceptedBase(routes, settings, mirrors, device, added) && AllWellFormed(added)
    requires AllWellFormed(Expansion(routes, mirrors, |mirrors|)) && AllWellFormed(Expansion(routes + added, mirrors, |mirrors|))
    requires m in mirrors && IsPair(m.source) && BaseLinksOutput(routes, added, m.source[0])
    ensures NewlyLinked(routes, added, mirrors, Output, m.target[0])
  {
    hide AcceptedBase, Requires, Expansion, Expandable, LinksOf, WellFormed;
    var left, l := m.source[0], Link(Output, m.target[0], true);
    DeskWide(routes, settings, mirrors, device, added);
    RequiresOfSum(routes, added, Link(Output, left, true));
    DeclaredLinkCopied(routes + added, mirrors, m);
    var b := LinkingRoute(added, left);
    RequirementFamilies(b);
    assert ParsedMirror(m);
    assert CopiedBy(routes + added, m, b, l);
    LinkedCopyOwnsItsPair(routes + added, mirrors, m, b, m.target[0]);
    RequiresOfSum(routes, added, l);
    if Requires(Expansion(routes, mirrors, |mirrors|), l) {
      ExpandedRequirement(routes, mirrors, l);
      var n, q :| n in mirrors && CopiedBy(routes, n, q, l);
      assert CopiedBy(routes + added, n, q, l);
      RequirementFamilies(q);
      assert LinkRequirements(q)[1] in LinkRequirements(q);
      RequiredBy(routes, q, LinkRequirements(q)[1]);
      assert LinkRequirements(q)[1] == Link(Output, left, true);
      DeclaredAsRequired(routes, Output, left, true);
    }
  }

  lemma LinkingRoute(routes: seq<Route>, left: int) returns (b: Route)
    requires AllWellFormed(routes) && Requires(routes, Link(Output, left, true))
    ensures b in routes && b.output == [left, left + 1] && LinkRequirements(b)[1] == Link(Output, left, true)
  {
    b :| b in routes && Link(Output, left, true) in LinkRequirements(b);
    LinkingRouteCoversPair(b, left);
  }

  // ---- what the base links, in terms of what the desk declares ----

  /**
   * A straight base plays this pair as one linked pair: it has both pairs, the output pair is no
   * mirror's target, no route keeps the playback pair apart or says anything of the output pair's
   * link, and none sets any of the four cells between them.
   */
  ghost predicate PlaysLinked(routes: seq<Route>, mirrors: seq<Mirror>, device: Device, left: int)
    requires AllWellFormed(routes)
  {
    && left in OddPairs(device.outputs) && left in OddPairs(device.playbacks)
    && !(IsTarget(mirrors, left) && IsTarget(mirrors, left + 1))
    && !Requires(routes, Link(Playback, left, false))
    && !Requires(routes, Link(Output, left, true)) && !Requires(routes, Link(Output, left, false))
    && forall r :: r in routes && r.kind == Playback ==> !(Shares(r.output, [left, left + 1]) && Shares(r.source, [left, left + 1]))
  }

  lemma Undeclared(routes: seq<Route>, family: Family, channel: int)
    requires AllWellFormed(routes) && LinkConsistent(routes)
    ensures (family, channel) !in LinksOf(routes, |routes|) <==>
      !Requires(routes, Link(family, channel, true)) && !Requires(routes, Link(family, channel, false))
    ensures Declared(LinksOf(routes, |routes|), family, channel) == Some(false) <==> Requires(routes, Link(family, channel, false))
  {
    hide LinksOf, Requires;
    if (family, channel) in LinksOf(routes, |routes|) {
      DeclaredMeansRequired(routes, family, channel);
    }
    RequiredIsDeclared(routes, family, channel, true);
    RequiredIsDeclared(routes, family, channel, false);
  }

  /** Whether any of the four cells of a pair is taken, by the table and by the routes. */
  lemma FreeCells(routes: seq<Route>, settings: seq<Setting>, mirrors: seq<Mirror>, device: Device, left: int)
    requires AllWellFormed(routes) && AllParsed(mirrors)
    ensures {(left, left), (left, left + 1), (left + 1, left), (left + 1, left + 1)} !! ContextOf(routes, settings, mirrors, device).taken <==>
      forall r :: r in routes && r.kind == Playback ==> !(Shares(r.output, [left, left + 1]) && Shares(r.source, [left, left + 1]))
  {
    hide LinksOf, TargetsOf, OddPairs, WellFormed, ParsedMirror;
    var taken := ContextOf(routes, settings, mirrors, device).taken;
    var cells := {(left, left), (left, left + 1), (left + 1, left), (left + 1, left + 1)};
    forall r | r in routes && r.kind == Playback && Shares(r.output, [left, left + 1]) && Shares(r.source, [left, left + 1])
      ensures exists cell :: cell in cells && cell in taken
    {
      var o :| o in r.output && o in [left, left + 1];
      var p :| p in r.source && p in [left, left + 1];
      assert (o, p) in taken && (o, p) in cells;
    }
    forall cell | cell in cells && cell in taken
      ensures exists r :: r in routes && r.kind == Playback && Shares(r.output, [left, left + 1]) && Shares(r.source, [left, left + 1])
    {
      var r :| r in routes && r.kind == Playback && cell.0 in r.output && cell.1 in r.source;
      assert cell.0 in [left, left + 1] && cell.1 in [left, left + 1];
    }
  }

  lemma ContextTargets(routes: seq<Route>, settings: seq<Setting>, mirrors: seq<Mirror>, device: Device, left: int)
    requires AllWellFormed(routes) && AllParsed(mirrors)
    ensures var c := ContextOf(routes, settings, mirrors, device);
      && (left in c.mirrored <==> IsTarget(mirrors, left)) && (left + 1 in c.mirrored <==> IsTarget(mirrors, left + 1))
      && (left in c.playback <==> left in OddPairs(device.playbacks)) && c.links == LinksOf(routes, |routes|)
  {
    hide LinksOf, TargetsOf, OddPairs, WellFormed, ParsedMirror;
  }

  /** A pair that plays linked has its route among those added. */
  lemma PlayedIsLinked(routes: seq<Route>, settings: seq<Setting>, mirrors: seq<Mirror>, device: Device, added: seq<Route>, left: int)
    requires AllWellFormed(routes) && AllParsed(mirrors) && LinkConsistent(routes)
    requires AcceptedBase(routes, settings, mirrors, device, added) && AllWellFormed(added)
    requires PlaysLinked(routes, mirrors, device, left)
    ensures BaseLinksOutput(routes, added, left)
  {
    hide LinksOf, ContextOf, Requires, RoutesUpTo;
    var c := ContextOf(routes, settings, mirrors, device);
    var outs := OddPairs(device.outputs);
    ContextTargets(routes, settings, mirrors, device, left);
    Undeclared(routes, Output, left);
    Undeclared(routes, Playback, left);
    FreeCells(routes, settings, mirrors, device, left);
    var k: nat :| k < |outs| && outs[k] == left;
    AcceptedEverywhere(c, outs, |outs|, k);
    var b := BaseRoute([left, left + 1], [left, left + 1], true);
    assert RoutesAt(c, left).value == [b];
    AddedAt(c, outs, |outs|, b);
    assert LinkRequirements(b)[1] == Link(Output, left, true) && LinkRequirements(b)[1] in LinkRequirements(b);
    RequiredBy(added, b, Link(Output, left, true));
  }

  lemma {:induction false} AcceptedEverywhere(c: Context, outs: seq<int>, n: nat, k: nat)
    requires k < n <= |outs| && (forall o :: o in outs ==> o % 2 == 1) && RoutesUpTo(c, outs, n).Ok?
    ensures outs[k] % 2 == 1 && RoutesAt(c, outs[k]).Ok?
  {
    hide RoutesAt;
    assert outs[n - 1] in outs;
    if k < n - 1 {
      AcceptedEverywhere(c, outs, n - 1, k);
    }
  }

  /** Every route that links an output pair undeclared so far is of a pair that plays linked. */
  lemma LinkedIsPlayed(routes: seq<Route>, settings: seq<Setting>, mirrors: seq<Mirror>, device: Device, added: seq<Route>, left: int)
    requires AllWellFormed(routes) && AllParsed(mirrors) && LinkConsistent(routes)
    requires AcceptedBase(routes, settings, mirrors, device, added) && AllWellFormed(added)
    requires BaseLinksOutput(routes, added, left)
    ensures PlaysLinked(routes, mirrors, device, left)
  {
    hide LinksOf, ContextOf, RoutesUpTo, WellFormed, LinkRequirements, RoutesAt, Wanted;
    var c := ContextOf(routes, settings, mirrors, device);
    var outs := OddPairs(device.outputs);
    var b := LinkingRoute(added, left);
    AddedAt(c, outs, |outs|, b);
    var k :| 0 <= k < |outs| && outs[k] % 2 == 1 && RoutesAt(c, outs[k]).Ok? && b in RoutesAt(c, outs[k]).value;
    assert outs[k] in outs;
    RoutesAtAccepted(c, outs[k], b);
    assert outs[k] == left;
    PlayedAt(c, left, b);
    ContextTargets(routes, settings, mirrors, device, left);
    Undeclared(routes, Output, left);
    Undeclared(routes, Playback, left);
    FreeCells(routes, settings, mirrors, device, left);
  }

  lemma PlayedAt(c: Context, left: int, b: Route)
    requires left % 2 == 1 && RoutesAt(c, left).Ok? && b in RoutesAt(c, left).value && AcceptedAt(c, left, b) && |b.output| == 2
    ensures left in c.playback
    ensures Wanted(c.links, Output, left) ==> Declared(c.links, Playback, left) != Some(false)
    ensures {(left, left), (left, left + 1), (left + 1, left), (left + 1, left + 1)} !! c.taken
  {
  }

  // ---- which mirrors escape the check ----

  /** A mirror of a pair that a later mirror copies too. */
  ghost predicate Replaced(mirrors: seq<Mirror>, m: Mirror) {
    |m.source| == |m.target| == 2 && exists i, j :: 0 <= i < j < |mirrors| && mirrors[i] == m && mirrors[j].source == m.source
  }

  /** The table names the target of the last mirror of each source pair. */
  lemma {:induction false} TableIsLast(mirrors: seq<Mirror>, n: nat, s: int) returns (j: nat)
    requires n <= |mirrors| && AllParsed(mirrors) && s in TargetsOf(mirrors, n)
    ensures j < n && |mirrors[j].source| == 2 && mirrors[j].source[0] == s && mirrors[j].target != []
    ensures TargetsOf(mirrors, n)[s] == mirrors[j].target[0]
    ensures forall k :: j < k < n && |mirrors[k].source| == 2 ==> mirrors[k].source[0] != s
  {
    var m := mirrors[n - 1];
    assert m in mirrors && ParsedMirror(m);
    if |m.source| == 2 && m.source[0] == s {
      j := n - 1;
    } else {
      j := TableIsLast(mirrors, n - 1, s);
    }
  }

  lemma ShadowedExactly(mirrors: seq<Mirror>, m: Mirror)
    requires AllParsed(mirrors) && DistinctTargets(mirrors)
    ensures Shadowed(mirrors, m) <==> Replaced(mirrors, m)
  {
    hide TargetsOf, ParsedMirror, Shares;
    if Shadowed(mirrors, m) {
      var i :| 0 <= i < |mirrors| && mirrors[i] == m;
      var j := TableIsLast(mirrors, |mirrors|, m.source[0]);
      SameSource(mirrors, i, j);
      assert i < j;
    }
    if Replaced(mirrors, m) {
      var i, j :| 0 <= i < j < |mirrors| && mirrors[i] == m && mirrors[j].source == m.source;
      assert mirrors[..|mirrors|] == mirrors;
      TableHasSource(mirrors, |mirrors|, m);
      var last := TableIsLast(mirrors, |mirrors|, m.source[0]);
      assert i < last;
      ApartTargets(mirrors, i, last);
    }
  }

  lemma SameSource(mirrors: seq<Mirror>, i: nat, j: nat)
    requires AllParsed(mirrors) && i < |mirrors| && j < |mirrors| && |mirrors[i].source| == |mirrors[j].source| == 2
    requires mirrors[i].source[0] == mirrors[j].source[0]
    ensures mirrors[i].source == mirrors[j].source
  {
    assert ParsedMirror(mirrors[i]) && ParsedMirror(mirrors[j]);
  }

  lemma ApartTargets(mirrors: seq<Mirror>, i: nat, j: nat)
    requires AllParsed(mirrors) && DistinctTargets(mirrors) && i < j < |mirrors|
    ensures mirrors[i].target != [] && mirrors[j].target != [] && mirrors[i].target[0] != mirrors[j].target[0]
    ensures |mirrors[i].source| == 2 ==> |mirrors[i].target| == 2
  {
    assert ParsedMirror(mirrors[i]) && ParsedMirror(mirrors[j]);
    assert mirrors[i].target[0] in mirrors[i].target && mirrors[j].target[0] in mirrors[j].target;
  }

  /** The condition on the desk: a mirror replaced in the table, of a pair the base plays linked, has its target set alike. */
  ghost predicate ReplacedAreAlike(routes: seq<Route>, settings: seq<Setting>, mirrors: seq<Mirror>, device: Device)
    requires AllWellFormed(routes)
  {
    forall m :: Replaced(mirrors, m) && PlaysLinked(routes, mirrors, device, m.source[0]) ==> SetAlike(settings, Output, m.target[0])
  }

  /** Whatever pair the base links anew, its two channels are set alike. */
  ghost predicate NewLinksAreAlike(routes: seq<Route>, settings: seq<Setting>, mirrors: seq<Mirror>, added: seq<Route>)
    requires AllWellFormed(Expansion(routes, mirrors, |mirrors|)) && AllWellFormed(Expansion(routes + added, mirrors, |mirrors|))
  {
    forall f: Family, c: int :: NewlyLinked(routes, added, mirrors, f, c) ==> SetAlike(settings, f, c)
  }

  /**
   * The links a base adds merge nothing the desk sets apart, exactly when of two mirrors of one pair
   * that it plays linked the earlier has its target set alike too.
   */
  lemma NewLinksAreAlikeExactly(routes: seq<Route>, settings: seq<Setting>, mirrors: seq<Mirror>, device: Device, added: seq<Route>)
    requires AllWellFormed(routes) && AllParsed(mirrors) && LinkConsistent(routes) && Expandable(routes, mirrors)
    requires AcceptedBase(routes, settings, mirrors, device, added) && AllWellFormed(added)
    requires AllWellFormed(Expansion(routes, mirrors, |mirrors|)) && AllWellFormed(Expansion(routes + added, mirrors, |mirrors|))
    ensures NewLinksAreAlike(routes, settings, mirrors, added) <==> ReplacedAreAlike(routes, settings, mirrors, device)
    ensures forall f: Family, c: int :: NewlyLinked(routes, added, mirrors, f, c) ==> f != Input
  {
    hide *;
    if NewLinksAreAlike(routes, settings, mirrors, added) {
      AlikeOnlyIf(routes, settings, mirrors, device, added);
    }
    if ReplacedAreAlike(routes, settings, mirrors, device) {
      AlikeIf(routes, settings, mirrors, device, added);
    }
    forall f: Family, c: int | NewlyLinked(routes, added, mirrors, f, c) ensures f != Input {
      NoInputIsLinked(routes, settings, mirrors, device, added, f, c);
    }
  }

  lemma AlikeIf(routes: seq<Route>, settings: seq<Setting>, mirrors: seq<Mirror>, device: Device, added: seq<Route>)
    requires AllWellFormed(routes) && AllParsed(mirrors) && LinkConsistent(routes) && Expandable(routes, mirrors)
    requires AcceptedBase(routes, settings, mirrors, device, added) && AllWellFormed(added)
    requires AllWellFormed(Expansion(routes, mirrors, |mirrors|)) && AllWellFormed(Expansion(routes + added, mirrors, |mirrors|))
    requires ReplacedAreAlike(routes, settings, mirrors, device)
    ensures NewLinksAreAlike(routes, settings, mirrors, added)
  {
    hide AcceptedBase, AllWellFormed, AllParsed, NewlyLinked, BaseLinksOutput, SetAlike, Expansion, Requires, PlaysLinked, Replaced, TargetsOf, WellFormed;
    forall f: Family, c: int | NewlyLinked(routes, added, mirrors, f, c) ensures SetAlike(settings, f, c) {
      NewLinkIsAlikeOrShadowed(routes, settings, mirrors, device, added, f, c);
      if !SetAlike(settings, f, c) {
        var m :| Shadowed(mirrors, m) && m.target[0] == c && BaseLinksOutput(routes, added, m.source[0]);
        ShadowedExactly(mirrors, m);
        LinkedIsPlayed(routes, settings, mirrors, device, added, m.source[0]);
      }
    }
  }

  lemma AlikeOnlyIf(routes: seq<Route>, settings: seq<Setting>, mirrors: seq<Mirror>, device: Device, added: seq<Route>)
    requires AllWellFormed(routes) && AllParsed(mirrors) && LinkConsistent(routes) && Expandable(routes, mirrors)
    requires AcceptedBase(routes, settings, mirrors, device, added) && AllWellFormed(added)
    requires AllWellFormed(Expansion(routes, mirrors, |mirrors|)) && AllWellFormed(Expansion(routes + added, mirrors, |mirrors|))
    requires NewLinksAreAlike(routes, settings, mirrors, added)
    ensures ReplacedAreAlike(routes, settings, mirrors, device)
  {
    hide AcceptedBase, AllWellFormed, AllParsed, NewlyLinked, BaseLinksOutput, SetAlike, Expansion, Requires, PlaysLinked, Shadowed, WellFormed;
    forall m | Replaced(mirrors, m) && PlaysLinked(routes, mirrors, device, m.source[0])
      ensures SetAlike(settings, Output, m.target[0])
    {
      PlayedIsLinked(routes, settings, mirrors, device, added, m.source[0]);
      ShadowedExactly(mirrors, m);
      ShadowedPair(mirrors, m);
      ShadowedTargetIsNewlyLinked(routes, settings, mirrors, device, added, m);
    }
  }

  lemma ShadowedPair(mirrors: seq<Mirror>, m: Mirror)
    requires AllParsed(mirrors) && Shadowed(mirrors, m)
    ensures m in mirrors && IsPair(m.source)
  {
    assert ParsedMirror(m);
  }

  lemma NoInputIsLinked(routes: seq<Route>, settings: seq<Setting>, mirrors: seq<Mirror>, device: Device, added: seq<Route>,
                        f: Family, c: int)
    requires AllWellFormed(routes) && AllParsed(mirrors) && LinkConsistent(routes) && Expandable(routes, mirrors)
    requires AcceptedBase(routes, settings, mirrors, device, added) && AllWellFormed(added)
    requires AllWellFormed(Expansion(routes, mirrors, |mirrors|)) && AllWellFormed(Expansion(routes + added, mirrors, |mirrors|))
    requires NewlyLinked(routes, added, mirrors, f, c)
    ensures f != Input
  {
    hide AcceptedBase, Requires, Expansion, Expandable, LinksOf, SetAlike, WellFormed, ParsedMirror, CopiedRequirement;
    var l := Link(f, c, true);
    DeskWide(routes, settings, mirrors, device, added);
    ExpandedRequirement(routes + added, mirrors, l);
    RequiresOfSum(routes, added, l);
    if Requires(routes, l) {
      DeclaredIsExpanded(routes, mirrors, l);
    } else if Requires(added, l) {
      AddedRequires(routes, settings, mirrors, device, added, l);
    }
  }

  // ---- the family that fails ----

  const DESK_DEVICE := Device([1, 2, 3, 4, 5, 6], [], [1, 2])
  const TWO_MIRRORS := [Mirror([3, 4], [1, 2]), Mirror([5, 6], [1, 2])]
  const APART := [Setting(Output, 3, "volume", Decimal(-10.0)), Setting(Output, 4, "volume", Decimal(-20.0))]

  lemma OddPairsOfDesk()
    ensures OddPairs([1, 2, 3, 4, 5, 6]) == [1, 3, 5]
    ensures OddPairs([1, 2]) == [1]
  {
    var a := [1, 2, 3, 4, 5, 6];
    assert OddPairsUpTo(a, 0) == [];
    assert OddPairsUpTo(a, 1) == [1];
    assert OddPairsUpTo(a, 2) == [1];
    assert OddPairsUpTo(a, 3) == [1, 3];
    assert OddPairsUpTo(a, 4) == [1, 3];
    assert OddPairsUpTo(a, 5) == [1, 3, 5];
    assert OddPairsUpTo(a, 6) == [1, 3, 5];
    var b := [1, 2];
    assert OddPairsUpTo(b, 0) == [];
    assert OddPairsUpTo(b, 1) == [1];
    assert OddPairsUpTo(b, 2) == [1];
  }

  /** Two mirrors of one pair: the base is accepted, yet it links outputs 3/4, whose volumes the desk sets apart. */
  lemma TwoMirrorsEscapeTheCheck()
    ensures AllParsed(TWO_MIRRORS)
    ensures var added := [BaseRoute([1, 2], [1, 2], true)];
      && AcceptedBase([], APART, TWO_MIRRORS, DESK_DEVICE, added)
      && Expandable([], TWO_MIRRORS) && Replaced(TWO_MIRRORS, TWO_MIRRORS[0]) && PlaysLinked([], TWO_MIRRORS, DESK_DEVICE, 1)
      && AllWellFormed(added) && AllWellFormed(Expansion([], TWO_MIRRORS, 2)) && AllWellFormed(Expansion([] + added, TWO_MIRRORS, 2))
      && NewlyLinked([], added, TWO_MIRRORS, Output, 3) && !SetAlike(APART, Output, 3)
  {
    AcceptedDesk();
    MirrorsParsed();
    var added := [BaseRoute([1, 2], [1, 2], true)];
    MirrorsExpand();
    var m := TWO_MIRRORS[0];
    assert m in TWO_MIRRORS && TWO_MIRRORS[1].source == m.source;
    DeskWide([], APART, TWO_MIRRORS, DESK_DEVICE, added);
    ExpansionIsWellFormed([], TWO_MIRRORS);
    AddedIsWellFormed([], APART, TWO_MIRRORS, DESK_DEVICE, added);
    LinkedIsPlayed([], APART, TWO_MIRRORS, DESK_DEVICE, added, 1);
    ShadowedTargetIsNewlyLinked([], APART, TWO_MIRRORS, DESK_DEVICE, added, m);
  }

  lemma MirrorsExpand()
    ensures Expandable([], TWO_MIRRORS)
  {
    var m := TWO_MIRRORS;
    assert !Shares(m[0].target, m[1].target);
    forall x | x in m ensures x == m[0] || x == m[1] {}
  }

  lemma AcceptedDesk()
    ensures AllParsed(TWO_MIRRORS)
    ensures var added := [BaseRoute([1, 2], [1, 2], true)];
      AcceptedBase([], APART, TWO_MIRRORS, DESK_DEVICE, added) && AllWellFormed(added) && BaseLinksOutput([], added, 1) && !SetAlike(APART, Output, 3)
  {
    hide RoutesAt, SetAlike, ContextOf, OddPairs, RoutesUpTo, TargetsOf;
    MirrorsParsed();
    var c := ContextOf([], APART, TWO_MIRRORS, DESK_DEVICE);
    var added := [BaseRoute([1, 2], [1, 2], true)];
    OddPairsOfDesk();
    DeskContext(c);
    DeskTargets();
    FirstPairAccepted(c);
    MirroredPairsSkipped(c);
    ThreePairs(c, added);
    VolumesApart();
    var l := LinkRequirements(added[0])[1];
    assert l in LinkRequirements(added[0]) && l == Link(Output, 1, true);
  }

  lemma MirrorsParsed()
    ensures AllParsed(TWO_MIRRORS)
  {
    assert ParsedMirror(TWO_MIRRORS[0]) && ParsedMirror(TWO_MIRRORS[1]);
  }

  lemma ThreePairs(c: Context, added: seq<Route>)
    requires RoutesAt(c, 1) == Ok(added) && RoutesAt(c, 3) == Ok([]) && RoutesAt(c, 5) == Ok([])
    ensures RoutesUpTo(c, [1, 3, 5], 3) == Ok(added)
  {
    hide RoutesAt;
    var outs := [1, 3, 5];
    assert [] + added == added && added + [] == added;
    assert RoutesUpTo(c, outs, 0) == Ok([]);
    assert RoutesUpTo(c, outs, 1) == Ok(added);
    assert RoutesUpTo(c, outs, 2) == Ok(added);
    assert RoutesUpTo(c, outs, 3) == Ok(added);
  }

  lemma DeskTargets()
    requires AllParsed(TWO_MIRRORS)
    ensures TargetsOf(TWO_MIRRORS, 2) == map[1 := 5]
  {
    TableOfTwo(TWO_MIRRORS);
  }

  /** The second mirror of a source pair takes the first one's place in the table. */
  lemma TableOfTwo(mirrors: seq<Mirror>)
    requires AllParsed(mirrors) && |mirrors| == 2
    requires |mirrors[0].source| == |mirrors[1].source| == 2 && mirrors[0].source[0] == mirrors[1].source[0]
    requires mirrors[1].target != []
    ensures TargetsOf(mirrors, 2) == map[mirrors[1].source[0] := mirrors[1].target[0]]
  {
    assert TargetsOf(mirrors, 0) == map[];
    assert mirrors[0] in mirrors && mirrors[1] in mirrors;
    assert TargetsOf(mirrors, 1).Keys == {mirrors[0].source[0]};
  }

  lemma DeskMirrored()
    ensures (set m, ch | m in TWO_MIRRORS && ch in m.target :: ch) == {3, 4, 5, 6}
  {
    var m := TWO_MIRRORS;
    assert m[0] in m && m[1] in m;
    assert 3 in m[0].target && 4 in m[0].target && 5 in m[1].target && 6 in m[1].target;
  }

  lemma DeskSources()
    requires AllParsed(TWO_MIRRORS)
    ensures (set m | m in TWO_MIRRORS && |m.source| == 1 :: m.source[0]) == {}
    ensures (set m | m in TWO_MIRRORS && |m.source| == 2 :: m.source[0]) == {1}
  {
    var m := TWO_MIRRORS;
    assert m[0] in m && m[0].source[0] == 1;
  }

  lemma DeskContext(c: Context)
    requires AllParsed(TWO_MIRRORS) && c == ContextOf([], APART, TWO_MIRRORS, DESK_DEVICE)
    ensures c.links == map[] && c.settings == APART && c.targets == map[1 := 5]
    ensures c.mirrored == {3, 4, 5, 6} && c.alone == {} && c.paired == {1} && c.taken == {} && c.playback == {1}
  {
    hide OddPairs, TargetsOf, ParsedMirror;
    OddPairsOfDesk();
    DeskTargets();
    DeskMirrored();
    DeskSources();
  }

  lemma FirstPairAccepted(c: Context)
    requires c.links == map[] && c.settings == APART && c.targets == map[1 := 5]
    requires c.mirrored == {3, 4, 5, 6} && c.alone == {} && c.paired == {1} && c.taken == {} && c.playback == {1}
    ensures RoutesAt(c, 1) == Ok([BaseRoute([1, 2], [1, 2], true)])
  {
    var diagonal := [BaseRoute([1, 2], [1, 2], true)];
    assert Diagonal(1, None, None, {}) == Ok(diagonal);
    assert MirrorProblem(c, 1, diagonal).None?;
    forall p | p in Owned(c, 1, diagonal) ensures SetAlike(c.settings, p.0, p.1) {
      assert p == (Playback, 1) || p == (Output, 1) || p == (Output, 5);
    }
  }

  lemma MirroredPairsSkipped(c: Context)
    requires c.mirrored == {3, 4, 5, 6}
    ensures RoutesAt(c, 3) == Ok([]) && RoutesAt(c, 5) == Ok([])
  {
  }

  lemma VolumesApart()
    ensures !SetAlike(APART, Output, 3)
  {
    var s := APART[0];
    assert s in APART;
    assert APART[..1] == [s] && APART[..1][..0] == [];
    assert ValueOf(APART, Output, 3, "volume") == ValueOf(APART[..1], Output, 3, "volume") == Some(Decimal(-10.0));
    assert ValueOf(APART, Output, 4, "volume") == Some(Decimal(-20.0));
  }
}
