/** Dumping, applying and dumping again: when it is a fixed point. */
module DumpFixedPoint {
  import opened Wrappers
  import opened MixModel
  import opened Base
  import opened Dump
  import opened DumpRoundTrip

  /** A device's families start at an odd channel and have no gaps below an even one. */
  ghost predicate WholePairs(device: Device, kind: Family) {
    && (forall c :: c in device.outputs && c % 2 == 0 ==> c - 1 in device.outputs)
    && (forall c :: c in device.Channels(kind) && c % 2 == 0 ==> c - 1 in device.Channels(kind))
  }

  lemma AudibleSound(d: Desk, c: Spot)
    requires c in Audible(d.seen, d.device, d.kind, d.g)
    ensures var v := Audible(d.seen, d.device, d.kind, d.g)[c];
      v.level > LEVEL_MIN && -100 <= v.pan <= 100 && c.0 in d.device.outputs && c.1 in d.device.Channels(d.kind)
  {
  }

  /** Every cell read is an audible one of the device, folded or not. */
  lemma EntrySound(d: Desk, c: Spot)
    requires Folds(Audible(d.seen, d.device, d.kind, d.g), d.entries, d.seen, d.kind)
    requires WholePairs(d.device, d.kind) && c in d.entries
    ensures d.entries[c].level > LEVEL_MIN && -100 <= d.entries[c].pan <= 100
    ensures c.0 in d.device.outputs && c.1 in d.device.Channels(d.kind)
  {
    hide Audible, BothLinked, Agreed;
    var audible := Audible(d.seen, d.device, d.kind, d.g);
    assert Lookup(d.entries, c) == Kept(audible, d.seen, d.kind, c);
    if BothLinked(d.seen, d.kind, c) && Balanced(audible, Key(c)) {
      var a :| a in Aliases(audible, Key(c)) && audible[a] == d.entries[c];
      AudibleSound(d, a);
    } else {
      AudibleSound(d, c);
    }
  }

  /** Every route a reading returns could have been declared. */
  lemma ReadRouteIsDeclarable(d: Desk, c: Spot)
    requires IsGainOffset(d.g) && d.kind != Output && WholePairs(d.device, d.kind)
    requires Folds(Audible(d.seen, d.device, d.kind, d.g), d.entries, d.seen, d.kind)
    requires c in d.entries && !Classify(d, c).Leave?
    ensures Declarable(RouteFor(d, c), d.device, d.kind) && Essence(RouteFor(d, c)) == RouteFor(d, c)
    ensures FirstCell(RouteFor(d, c)) == c
  {
    hide Folds, RoundTenth, IsTenth, Linked, WholePairs;
    EntrySound(d, c);
    RoundedIsTenth(d.entries[c].level);
    RoundedIsTenth(d.entries[c].level - d.g);
    assert (c.0, c.1) == c;
  }

  /** A returned route states the links the device reported. */
  lemma ReadLinks(d: Desk, c: Spot, l: Link)
    requires d.kind != Output && c in d.entries && !Classify(d, c).Leave? && WellFormed(RouteFor(d, c))
    requires l in LinkRequirements(RouteFor(d, c))
    ensures Linked(d.seen, l.family, l.channel) == Some(l.linked)
  {
    LinkedByOdd(d.seen, Output, c.0);
    LinkedByOdd(d.seen, d.kind, c.1);
  }

  /** A returned route's registers are the cells its reading used up. */
  lemma ReadCells(d: Desk, c: Spot, x: Cell)
    requires c in d.entries && !Classify(d, c).Leave? && WellFormed(RouteFor(d, c))
    requires x in RouteCells(RouteFor(d, c))
    ensures (x.out, x.src) in Claims(d, c)
  {
    hide Linked, RoundTenth;
    ClaimsShape(d, c);
    assert (c.0, c.1) == c;
  }

  /** What a reading returns is a desk that could have been declared. */
  lemma ReadingIsDeclarable(d: Desk, routes: seq<Route>, heads: seq<Spot>, early: seq<Omission>, left: seq<Omission>)
    requires IsGainOffset(d.g) && d.kind != Output && WholePairs(d.device, d.kind)
    requires Reading(d, routes, heads, early, left)
    ensures DeclarableDesk(routes, d.device, d.kind)
    ensures forall i :: 0 <= i < |routes| ==> Essence(routes[i]) == routes[i] && WellFormed(routes[i]) && FirstCell(routes[i]) == heads[i]
  {
    hide Classify, RouteFor, Declarable, Essence, FirstCell, WholePairs, Folds, Audible, Head, Linked, LinkRequirements, RouteCells, Claims, MixCell, Contradictory;
    HeadIsEntry(d);
    forall i | 0 <= i < |routes|
      ensures Declarable(routes[i], d.device, d.kind) && WellFormed(routes[i])
      ensures Essence(routes[i]) == routes[i] && FirstCell(routes[i]) == heads[i]
    {
      ReadRouteIsDeclarable(d, heads[i]);
      DeclarableIsWellFormed(routes[i], d.device, d.kind);
    }
    assert AllWellFormed(routes);
    forall f: Family, ch: int ensures !(Requires(routes, Link(f, ch, true)) && Requires(routes, Link(f, ch, false))) {
      RequiredIsReported(d, routes, heads, early, left, Link(f, ch, true));
      RequiredIsReported(d, routes, heads, early, left, Link(f, ch, false));
    }
    forall i, j | 0 <= i < j < |routes|
      ensures forall x :: x in RouteCells(routes[i]) ==> x !in RouteCells(routes[j])
    {
      ReadingsAreApart(d, routes, heads, early, left, i, j);
    }
  }

  lemma DeclarableIsWellFormed(r: Route, device: Device, kind: Family)
    requires Declarable(r, device, kind)
    ensures WellFormed(r)
  {
  }

  lemma RequiredIsReported(d: Desk, routes: seq<Route>, heads: seq<Spot>, early: seq<Omission>, left: seq<Omission>, l: Link)
    requires d.kind != Output && AllWellFormed(routes) && Reading(d, routes, heads, early, left)
    ensures Requires(routes, l) ==> Linked(d.seen, l.family, l.channel) == Some(l.linked)
  {
    hide Classify, RouteFor, Folds, Audible, Head, Linked, LinkRequirements;
    if Requires(routes, l) {
      var r :| r in routes && l in LinkRequirements(r);
      var i :| 0 <= i < |routes| && routes[i] == r;
      ReadLinks(d, heads[i], l);
    }
  }

  lemma ReadingsAreApart(d: Desk, routes: seq<Route>, heads: seq<Spot>, early: seq<Omission>, left: seq<Omission>, i: nat, j: nat)
    requires AllWellFormed(routes) && Reading(d, routes, heads, early, left) && i < j < |routes|
    ensures forall x :: x in RouteCells(routes[i]) ==> x !in RouteCells(routes[j])
  {
    hide Classify, RouteFor, Folds, Audible, Head, RouteCells, Claims, MixCell, Contradictory;
    var h, k := heads[i], heads[j];
    assert h in heads && k in heads && Lex(h, k);
    assert h != k;
    forall x | x in RouteCells(routes[i]) ensures x !in RouteCells(routes[j]) {
      if x in RouteCells(routes[j]) {
        ReadCells(d, h, x);
        ReadCells(d, k, x);
        var c := (x.out, x.src);
        ClaimedFromLeft(d, h, c);
        EachCellOnce(d, c);
      }
    }
  }

  lemma FirstIsIn(a: seq<Spot>)
    ensures |a| > 0 ==> a[0] in a
  {
  }

  lemma {:induction false} SortedListsAgree(a: seq<Spot>, b: seq<Spot>)
    requires Increasing(a) && Increasing(b)
    requires forall c :: c in a <==> c in b
    ensures a == b
  {
    if a == [] {
      FirstIsIn(b);
    } else {
      assert a[0] in a;
      var i :| 0 <= i < |b| && b[i] == a[0];
      assert b[0] in b;
      var j :| 0 <= j < |a| && a[j] == b[0];
      if i > 0 && j > 0 {
        LexTotal(a[0], b[0]);
      }
      assert a[0] == b[0];
      var s, t := a[1..], b[1..];
      forall c ensures c in s <==> c in t {
        if c in s {
          var k :| 0 <= k < |s| && s[k] == c;
          assert a[k + 1] == c && Lex(a[0], c);
          LexTotal(a[0], c);
          assert c in b;
        }
        if c in t {
          var k :| 0 <= k < |t| && t[k] == c;
          assert b[k + 1] == c && Lex(b[0], c);
          LexTotal(b[0], c);
          assert c in a;
        }
      }
      SortedListsAgree(s, t);
      assert a == [a[0]] + s && b == [b[0]] + t;
    }
  }

  // ---- what the device reports once the routes have been written ----

  /** The cells a route's registers stand for: what it writes, and for a linked pair the whole block. */
  predicate Touches(r: Route, c: Spot)
    requires WellFormed(r)
  {
    || c == FirstCell(r)
    || (|r.output| == 2 && !r.stereo && c == (r.output[1], r.source[0]))
    || (|r.output| == 2 && r.stereo && Key(c) == FirstCell(r))
  }

  ghost predicate Untouched(routes: seq<Route>, c: Spot)
    requires AllWellFormed(routes)
  {
    forall r :: r in routes ==> !Touches(r, c)
  }

  /**
   * Routes written over a reported state: the links they require are reported as before, being those
   * they were read with; their registers as written; and every cell they do not touch as before.
   */
  ghost predicate WrittenOver(seen: Seen, seen': Seen, routes: seq<Route>, device: Device, kind: Family, g: real)
    requires AllWellFormed(routes)
  {
    && (forall f: Family, ch: int :: Linked(seen', f, ch) == Linked(seen, f, ch))
    && (forall r, m :: r in routes && m in Messages(r, g) ==> Reports(seen', m, device, kind, g))
    && (forall c :: Untouched(routes, c) ==> SameReport(seen, seen', c))
  }

  predicate SameReport(seen: Seen, seen': Seen, c: Spot) {
    (c in seen'.mix <==> c in seen.mix) && (c in seen.mix ==> seen'.mix[c] == seen.mix[c])
  }

  /**
   * What must hold of the other registers of a linked block that was rewritten: each one that is
   * audible says what was written, or neither it nor the route has a balance.
   */
  ghost predicate AliasesFollow(seen': Seen, routes: seq<Route>, device: Device, kind: Family, g: real)
    requires AllWellFormed(routes)
  {
    forall r, c :: r in routes && IsAlias(r, c) && c in Audible(seen', device, kind, g) ==>
      Follows(r, Audible(seen', device, kind, g)[c])
  }

  predicate IsAlias(r: Route, c: Spot)
    requires WellFormed(r)
  {
    |r.output| == 2 && r.stereo && Key(c) == FirstCell(r) && c != FirstCell(r)
  }

  predicate Follows(r: Route, v: Level) {
    v == Level(r.level, r.pan) || (v.pan == 0 && r.pan == 0)
  }

  /** A cell read as a linked pair or as a single cell whose level rounds to the floor. */
  predicate RoundsToTheFloor(d: Desk, c: Spot) {
    && c in d.entries && d.entries[c].pan == 0 && RoundTenth(d.entries[c].level) <= LEVEL_MIN
    && ((PairPosition(d, c) && BothLinked(d.seen, d.kind, c))
        || (Linked(d.seen, Output, c.0) == Some(false) && Linked(d.seen, d.kind, c.1) == Some(false)))
  }

  ghost predicate NoneAtTheFloor(d: Desk) {
    forall c :: !RoundsToTheFloor(d, c)
  }

  // ---- one cell after another ----

  predicate IsRoute(d: Desk, c: Spot) {
    Head(d, c) && !Classify(d, c).Leave?
  }

  /** A reading and a second one of the same device after the first one's routes were written. */
  ghost predicate Twice(d: Desk, routes: seq<Route>, heads: seq<Spot>, d': Desk) {
    && IsGainOffset(d.g) && d.kind != Output && WholePairs(d.device, d.kind)
    && d'.device == d.device && d'.kind == d.kind && d'.g == d.g
    && Folds(Audible(d.seen, d.device, d.kind, d.g), d.entries, d.seen, d.kind)
    && Folds(Audible(d'.seen, d.device, d.kind, d.g), d'.entries, d'.seen, d.kind)
    && |routes| == |heads| && AllWellFormed(routes)
    && (forall c :: c in heads <==> IsRoute(d, c))
    && (forall i :: 0 <= i < |heads| ==> heads[i] in d.entries && !Classify(d, heads[i]).Leave? && routes[i] == RouteFor(d, heads[i]))
    && WrittenOver(d.seen, d'.seen, routes, d.device, d.kind, d.g) && AliasesFollow(d'.seen, routes, d.device, d.kind, d.g)
  }

  lemma HeadHasRoute(d: Desk, routes: seq<Route>, heads: seq<Spot>, d': Desk, h: Spot)
    requires Twice(d, routes, heads, d') && IsRoute(d, h)
    ensures h in d.entries && RouteFor(d, h) in routes && WellFormed(RouteFor(d, h))
    ensures Declarable(RouteFor(d, h), d.device, d.kind) && FirstCell(RouteFor(d, h)) == h
  {
    hide Classify, RouteFor, Head, Folds, Audible, Declarable, WrittenOver, AliasesFollow, WholePairs;
    assert h in heads;
    var i :| 0 <= i < |heads| && heads[i] == h;
    ReadRouteIsDeclarable(d, h);
  }

  /** How a route relates to the verdict it came from. */
  lemma RouteShape(d: Desk, h: Spot)
    requires h in d.entries && !Classify(d, h).Leave? && WellFormed(RouteFor(d, h))
    ensures var r := RouteFor(d, h);
      && (Classify(d, h) == AsPair <==> |r.output| == 2 && r.stereo) && (Classify(d, h) == AsSplit <==> |r.output| == 2 && !r.stereo)
      && (|r.output| == 2 ==> r.output[1] == h.0 + 1 && r.output == [h.0, h.0 + 1] && r.source == [h.1, h.1 + 1] && h.0 % 2 == 1 && h.1 % 2 == 1)
      && (|r.output| == 1 ==> r.output == [h.0] && r.source == [h.1] && r.pan == 0)
      && Linked(d.seen, Output, h.0) == Some(|r.output| == 2 && r.stereo) && Linked(d.seen, d.kind, h.1) == Some(|r.output| == 2)
      && Essence(r) == r && r.kind == d.kind && (Classify(d, h) == AsSplit ==> r.level > LEVEL_MIN)
    ensures RouteFor(d, h).level <= LEVEL_MIN ==> RoundsToTheFloor(d, h)
  {
    hide Linked, RoundTenth;
  }

  /** Every register of a linked block other than its own is left over by any reading. */
  lemma AliasIsLeft(d: Desk, c: Spot)
    requires BothLinked(d.seen, d.kind, c) && c != Key(c) && c in d.entries
    ensures Classify(d, c).Leave?
  {
    hide Linked, RoundTenth;
    assert (c.0, c.1) == c;
  }

  /** What a written register says at the second reading, before folding. */
  lemma WrittenIsAudible(d: Desk, routes: seq<Route>, heads: seq<Spot>, d': Desk, h: Spot, m: (Spot, Level))
    requires Twice(d, routes, heads, d') && IsRoute(d, h) && WellFormed(RouteFor(d, h)) && m in Messages(RouteFor(d, h), d.g)
    ensures Lookup(Audible(d'.seen, d.device, d.kind, d.g), m.0) == if RouteFor(d, h).level > LEVEL_MIN then Some(m.1) else None
  {
    hide Classify, RouteFor, Head, Folds, Declarable, AliasesFollow, WholePairs, Messages, MixCell, Reports;
    HeadHasRoute(d, routes, heads, d', h);
    var r := RouteFor(d, h);
    assert Reports(d'.seen, m, d.device, d.kind, d.g);
    MessageIsAudible(r, m, d.device, d.kind, d.g, d'.seen);
    ReportsIsReported(d'.seen, m, d.device, d.kind, d.g);
  }

  lemma SameLinks(d: Desk, routes: seq<Route>, heads: seq<Spot>, d': Desk, c: Spot)
    requires Twice(d, routes, heads, d')
    ensures BothLinked(d'.seen, d.kind, c) == BothLinked(d.seen, d.kind, c)
    ensures Linked(d'.seen, Output, c.0) == Linked(d.seen, Output, c.0) && Linked(d'.seen, d.kind, c.1) == Linked(d.seen, d.kind, c.1)
  {
    hide Classify, RouteFor, Head, Folds, Linked, AliasesFollow, Audible, Reports, Messages;
  }

  lemma FoldedIs(d: Desk, c: Spot)
    requires Folds(Audible(d.seen, d.device, d.kind, d.g), d.entries, d.seen, d.kind)
    ensures Lookup(d.entries, c) == Kept(Audible(d.seen, d.device, d.kind, d.g), d.seen, d.kind, c)
  {
    hide Audible, Kept;
  }

  /** Outside linked blocks nothing is folded. */
  lemma NotFolded(entries: map<Spot, Level>, seen: Seen, kind: Family, c: Spot)
    requires !BothLinked(seen, kind, c)
    ensures Kept(entries, seen, kind, c) == Lookup(entries, c)
  {
    hide BothLinked;
  }

  /** A linked block that agrees with what its own register says, or has no balance, keeps that register as it is. */
  lemma KeptAtKey(entries: map<Spot, Level>, seen: Seen, kind: Family, r: Route)
    requires WellFormed(r) && |r.output| == 2 && r.stereo && Key(FirstCell(r)) == FirstCell(r)
    requires forall c :: IsAlias(r, c) && c in entries ==> Follows(r, entries[c])
    requires FirstCell(r) in entries ==> entries[FirstCell(r)] == Level(r.level, r.pan)
    requires FirstCell(r) !in entries ==> r.pan == 0 && r.level <= LEVEL_MIN && forall c :: c in entries ==> entries[c].level > LEVEL_MIN
    ensures Kept(entries, seen, kind, FirstCell(r)) == Lookup(entries, FirstCell(r))
  {
    hide BothLinked, Key;
    var key := FirstCell(r);
    forall a | a in Aliases(entries, key) ensures a == key || IsAlias(r, a) {}
    if Balanced(entries, key) {
      var b :| b in Aliases(entries, key) && entries[b].pan != 0;
      assert r.pan != 0;
      forall a | a in Aliases(entries, key) ensures entries[a] == Level(r.level, r.pan) {}
      assert key in Aliases(entries, key);
    }
  }

  /** Nothing less will do: an alias that does not follow contradicts the rewritten register, and the block is omitted. */
  lemma AliasesMustFollow(entries: map<Spot, Level>, seen: Seen, kind: Family, r: Route, c: Spot)
    requires WellFormed(r) && |r.output| == 2 && r.stereo && BothLinked(seen, kind, FirstCell(r)) && Key(FirstCell(r)) == FirstCell(r)
    requires FirstCell(r) in entries && entries[FirstCell(r)] == Level(r.level, r.pan)
    requires IsAlias(r, c) && c in entries && !Follows(r, entries[c])
    ensures Contradictory(entries, seen, kind, FirstCell(r)) && Kept(entries, seen, kind, FirstCell(r)) == None
  {
    hide BothLinked, Key;
    var key := FirstCell(r);
    assert c in Aliases(entries, key) && key in Aliases(entries, key);
  }

  /** Written registers are read at the second reading as they were written; a silenced one is gone. */
  lemma WrittenEntry(d: Desk, routes: seq<Route>, heads: seq<Spot>, d': Desk, h: Spot, m: (Spot, Level))
    requires Twice(d, routes, heads, d') && IsRoute(d, h) && WellFormed(RouteFor(d, h)) && m in Messages(RouteFor(d, h), d.g)
    ensures Lookup(d'.entries, m.0) == if RouteFor(d, h).level > LEVEL_MIN then Some(m.1) else None
  {
    hide Classify, RouteFor, Head, Folds, Declarable, WrittenOver, WholePairs, Messages, MixCell, Linked, Audible, Kept, Key;
    HeadHasRoute(d, routes, heads, d', h);
    RouteShape(d, h);
    WrittenIsAudible(d, routes, heads, d', h, m);
    FoldedIs(d', m.0);
    SameLinks(d, routes, heads, d', m.0);
    var r := RouteFor(d, h);
    var audible := Audible(d'.seen, d.device, d.kind, d.g);
    PlaceOf(r, d.g, m);
    if |r.output| == 2 && r.stereo {
      OwnKey(h);
      AboveTheFloor(d'.seen, d.device, d.kind, d.g);
      if r.level <= LEVEL_MIN {
        SilencedHasNoBalance(d, h);
      }
      KeptAtKey(audible, d'.seen, d.kind, r);
    } else {
      LinkedByOdd(d.seen, Output, m.0.0);
      LinkedByOdd(d.seen, Output, h.0);
      NotFolded(audible, d'.seen, d.kind, m.0);
    }
  }

  lemma SilencedHasNoBalance(d: Desk, h: Spot)
    requires h in d.entries && !Classify(d, h).Leave? && RouteFor(d, h).level <= LEVEL_MIN
    ensures RouteFor(d, h).pan == 0
  {
    hide Linked, RoundTenth;
  }

  lemma OwnKey(h: Spot)
    ensures h.0 % 2 == 1 && h.1 % 2 == 1 ==> Key(h) == h
  {
    assert (h.0, h.1) == h;
  }

  lemma AboveTheFloor(seen: Seen, device: Device, kind: Family, g: real)
    ensures forall c :: c in Audible(seen, device, kind, g) ==> Audible(seen, device, kind, g)[c].level > LEVEL_MIN
  {
  }

  lemma PlaceOf(r: Route, g: real, m: (Spot, Level))
    requires WellFormed(r) && m in Messages(r, g)
    ensures m.0 == FirstCell(r) || (|r.output| == 2 && !r.stereo && m.0 == (r.output[1], r.source[0]))
    ensures |r.output| == 2 && r.stereo ==> m == (FirstCell(r), Level(r.level, r.pan))
    ensures Odd(m.0.0) == Odd(r.output[0]) && m.0.1 == r.source[0]
  {
  }

  /** A cell no route touches is read at the second reading as at the first. */
  lemma UntouchedEntry(d: Desk, routes: seq<Route>, heads: seq<Spot>, d': Desk, c: Spot)
    requires Twice(d, routes, heads, d') && Untouched(routes, c)
    ensures Lookup(d'.entries, c) == Lookup(d.entries, c)
  {
    hide Classify, RouteFor, Head, Folds, WrittenOver, WholePairs, Messages, MixCell, Linked, Audible, Kept, Key, Touches, AliasesFollow;
    FoldedIs(d, c);
    FoldedIs(d', c);
    SameLinks(d, routes, heads, d', c);
    var before, after := Audible(d.seen, d.device, d.kind, d.g), Audible(d'.seen, d.device, d.kind, d.g);
    UntouchedReport(d, routes, heads, d', c);
    if BothLinked(d.seen, d.kind, c) {
      forall a | Key(a) == Key(c) ensures Lookup(after, a) == Lookup(before, a) {
        UntouchedBlock(d, routes, heads, d', c, a);
        UntouchedReport(d, routes, heads, d', a);
      }
      KeptAlike(before, after, d.seen, d'.seen, d.kind, c);
    } else {
      NotFolded(before, d.seen, d.kind, c);
      NotFolded(after, d'.seen, d.kind, c);
    }
  }

  lemma UntouchedReport(d: Desk, routes: seq<Route>, heads: seq<Spot>, d': Desk, c: Spot)
    requires Twice(d, routes, heads, d') && Untouched(routes, c)
    ensures SameReport(d.seen, d'.seen, c)
    ensures Lookup(Audible(d'.seen, d.device, d.kind, d.g), c) == Lookup(Audible(d.seen, d.device, d.kind, d.g), c)
  {
    hide Classify, RouteFor, Head, Folds, WholePairs, Messages, MixCell, Linked, Touches, AliasesFollow, Untouched;
    assert SameReport(d.seen, d'.seen, c);
  }

  lemma KeptAlike(before: map<Spot, Level>, after: map<Spot, Level>, seen: Seen, seen': Seen, kind: Family, c: Spot)
    requires BothLinked(seen, kind, c) == BothLinked(seen', kind, c)
    requires forall a :: Key(a) == Key(c) ==> Lookup(after, a) == Lookup(before, a)
    ensures Kept(after, seen', kind, c) == Kept(before, seen, kind, c)
    ensures Balanced(after, Key(c)) == Balanced(before, Key(c)) && Agreed(after, Key(c)) == Agreed(before, Key(c))
  {
    hide BothLinked, Key;
    var key := Key(c);
    assert Aliases(after, key) == Aliases(before, key) by {
      forall a ensures a in Aliases(after, key) <==> a in Aliases(before, key) {
        if Key(a) == key {
          assert Lookup(after, a) == Lookup(before, a);
        }
      }
    }
    forall a | a in Aliases(before, key) ensures after[a] == before[a] {
      assert Lookup(after, a) == Lookup(before, a);
    }
    assert Lookup(after, c) == Lookup(before, c);
  }

  /** In a linked block, a route that touches one register touches them all. */
  lemma UntouchedBlock(d: Desk, routes: seq<Route>, heads: seq<Spot>, d': Desk, c: Spot, a: Spot)
    requires Twice(d, routes, heads, d') && Untouched(routes, c) && BothLinked(d.seen, d.kind, c) && Key(a) == Key(c)
    ensures Untouched(routes, a)
  {
    hide Classify, RouteFor, Head, Folds, WrittenOver, WholePairs, Messages, MixCell, Linked, Audible, AliasesFollow;
    forall r | r in routes ensures !Touches(r, a) {
      var i :| 0 <= i < |routes| && routes[i] == r;
      var h := heads[i];
      assert h in heads;
      HeadHasRoute(d, routes, heads, d', h);
      RouteShape(d, h);
      LinkedByOdd(d.seen, Output, a.0);
      LinkedByOdd(d.seen, d.kind, a.1);
      LinkedByOdd(d.seen, Output, c.0);
      LinkedByOdd(d.seen, d.kind, c.1);
      LinkedByOdd(d.seen, Output, h.0);
      LinkedByOdd(d.seen, d.kind, h.1);
      assert !Touches(r, c);
      if Touches(r, a) {
        if |r.output| == 2 && r.stereo {
          OwnKey(h);
        }
      }
    }
  }

  // ---- the second reading, cell by cell ----

  /** An audible route is read again from its own cell, as it was. */
  lemma AudibleAgain(d: Desk, routes: seq<Route>, heads: seq<Spot>, d': Desk, h: Spot)
    requires Twice(d, routes, heads, d') && IsRoute(d, h) && RouteFor(d, h).level > LEVEL_MIN
    ensures h in d'.entries && Classify(d', h) == Classify(d, h) && !Classify(d', h).Leave? && RouteFor(d', h) == RouteFor(d, h)
  {
    hide Twice, Folds, WrittenOver, WholePairs, Messages, MixCell, Linked, Audible, Kept, Classify, RouteFor, RoundTenth, IsTenth, Head;
    HeadHasRoute(d, routes, heads, d', h);
    RouteShape(d, h);
    SameDevice(d, routes, heads, d');
    SameLinks(d, routes, heads, d', h);
    var r := RouteFor(d, h);
    TenthIsFixed(r.level);
    MessageSpots(r, d.g);
    MessagesOf(r, d.g);
    var all := Messages(r, d.g);
    assert all[0] in all;
    WrittenEntry(d, routes, heads, d', h, all[0]);
    assert r.output[0] in r.output && r.source[0] in r.source;
    if |r.output| == 2 {
      assert r.output[1] in r.output && r.source[1] in r.source;
      if r.stereo {
        PairReadsBack(d', r);
      } else {
        assert all[1] in all;
        WrittenEntry(d, routes, heads, d', h, all[1]);
        SplitReadsBack(d', r);
      }
    } else {
      MonoReadsBack(d', r);
    }
  }

  lemma SameDevice(d: Desk, routes: seq<Route>, heads: seq<Spot>, d': Desk)
    requires Twice(d, routes, heads, d')
    ensures d'.device == d.device && d'.kind == d.kind && d'.g == d.g && IsGainOffset(d.g) && AllWellFormed(routes)
  {
    hide Classify, RouteFor, Head, Folds, WrittenOver, AliasesFollow, Audible;
  }

  lemma MessagesOf(r: Route, g: real)
    requires WellFormed(r) && r.level > LEVEL_MIN && (|r.output| == 2 && !r.stereo ==> r.level <= 0.0) && (|r.output| == 1 ==> r.pan == 0)
    ensures var all := Messages(r, g);
      && (|r.output| == 2 && !r.stereo ==> |all| == 2 && all[0].1 == Level(r.level + g, -100) && all[1].1 == Level(r.level + g, 100))
      && (!(|r.output| == 2 && !r.stereo) ==> |all| == 1 && all[0].1 == Level(r.level, r.pan))
  {
  }

  lemma MonoReadsBack(d: Desk, r: Route)
    requires WellFormed(r) && |r.output| == 1 && r.kind == d.kind && r.pan == 0 && FirstCell(r) in d.entries && Essence(r) == r
    requires d.entries[FirstCell(r)] == Level(r.level, 0) && RoundTenth(r.level) == r.level && LEVEL_MIN < r.level <= LEVEL_MAX
    requires Linked(d.seen, Output, r.output[0]) == Some(false) && Linked(d.seen, d.kind, r.source[0]) == Some(false)
    ensures Classify(d, FirstCell(r)) == AsMono && RouteFor(d, FirstCell(r)) == Essence(r)
  {
    hide Linked, RoundTenth;
    assert r.output == [r.output[0]] && r.source == [r.source[0]];
  }

  /** Which routes touch a cell: its own, the split one to its left, or the linked pair of its block. */
  lemma TouchedBy(d: Desk, routes: seq<Route>, heads: seq<Spot>, d': Desk, c: Spot) returns (h: Spot)
    requires Twice(d, routes, heads, d') && !Untouched(routes, c)
    ensures IsRoute(d, h) && WellFormed(RouteFor(d, h)) && Touches(RouteFor(d, h), c)
  {
    hide Classify, RouteFor, Head, Folds, WrittenOver, AliasesFollow, Audible, Touches;
    var r :| r in routes && Touches(r, c);
    var i :| 0 <= i < |routes| && routes[i] == r;
    h := heads[i];
    assert h in heads;
  }

  lemma TouchesItsOwn(d: Desk, routes: seq<Route>, heads: seq<Spot>, d': Desk, h: Spot)
    requires Twice(d, routes, heads, d') && IsRoute(d, h)
    ensures !Untouched(routes, h)
    ensures Classify(d, h) == AsSplit ==> !Untouched(routes, (h.0 + 1, h.1))
  {
    hide Classify, RouteFor, Folds, WrittenOver, AliasesFollow, Audible, Head;
    HeadHasRoute(d, routes, heads, d', h);
    RouteShape(d, h);
    assert Touches(RouteFor(d, h), h);
  }

  /** A cell no route touches is no route's at the second reading either. */
  lemma UntouchedIsLeft(d: Desk, routes: seq<Route>, heads: seq<Spot>, d': Desk, c: Spot)
    requires Twice(d, routes, heads, d') && Untouched(routes, c) && c in d'.entries
    ensures c in d.entries && Head(d, c) && Classify(d', c) == Classify(d, c) && Classify(d, c).Leave?
  {
    hide Twice, Classify, RouteFor, Folds, WrittenOver, AliasesFollow, Audible, Untouched, Touches, Head;
    UntouchedEntry(d, routes, heads, d', c);
    if !Head(d, c) {
      NotHeadIsClaimed(d, c);
      var l := (c.0 - 1, c.1);
      assert (l.0 + 1, l.1) == c;
      ClaimedFromLeft(d, l, c);
      TouchesItsOwn(d, routes, heads, d', l);
    }
    if !Classify(d, c).Leave? {
      TouchesItsOwn(d, routes, heads, d', c);
    }
    SameDevice(d, routes, heads, d');
    SameLinks(d, routes, heads, d', c);
    var x := (c.0 + 1, c.1);
    if c.0 % 2 == 1 && Linked(d.seen, Output, c.0) == Some(false) && Linked(d.seen, d.kind, c.1) == Some(true) {
      RightIsUntouched(d, routes, heads, d', c);
      UntouchedEntry(d, routes, heads, d', x);
    }
    SameVerdict(d, d', c);
  }

  /** Beside an untouched cell of a half-linked block the right one is untouched too. */
  lemma RightIsUntouched(d: Desk, routes: seq<Route>, heads: seq<Spot>, d': Desk, c: Spot)
    requires Twice(d, routes, heads, d') && Untouched(routes, c) && c.0 % 2 == 1
    requires Linked(d.seen, Output, c.0) == Some(false) && Linked(d.seen, d.kind, c.1) == Some(true)
    ensures Untouched(routes, (c.0 + 1, c.1))
  {
    hide Twice, Classify, RouteFor, Folds, WrittenOver, AliasesFollow, Audible, Linked, Head;
    var x := (c.0 + 1, c.1);
    SameDevice(d, routes, heads, d');
    if !Untouched(routes, x) {
      var h := TouchedBy(d, routes, heads, d', x);
      HeadHasRoute(d, routes, heads, d', h);
      RouteShape(d, h);
      assert (h.0, h.1) == h && (c.0, c.1) == c;
      var r := RouteFor(d, h);
      assert !Touches(r, c);
      LinkedByOdd(d.seen, Output, x.0);
      LinkedByOdd(d.seen, Output, c.0);
      LinkedByOdd(d.seen, Output, h.0);
      if |r.output| == 2 && r.stereo {
        OwnKey(h);
      }
      assert false;
    }
  }

  lemma SameVerdict(d: Desk, d': Desk, c: Spot)
    requires d'.device == d.device && d'.kind == d.kind && d'.g == d.g && c in d.entries && c in d'.entries
    requires d'.entries[c] == d.entries[c]
    requires Linked(d'.seen, Output, c.0) == Linked(d.seen, Output, c.0) && Linked(d'.seen, d.kind, c.1) == Linked(d.seen, d.kind, c.1)
    requires c.0 % 2 == 1 && Linked(d.seen, Output, c.0) == Some(false) && Linked(d.seen, d.kind, c.1) == Some(true) ==>
      Lookup(d'.entries, (c.0 + 1, c.1)) == Lookup(d.entries, (c.0 + 1, c.1))
    ensures Classify(d', c) == Classify(d, c)
  {
    hide Linked, RoundTenth;
  }

  /** At the second reading only what was a route above the floor is one. */
  lemma OnlyRoutesAgain(d: Desk, routes: seq<Route>, heads: seq<Spot>, d': Desk, c: Spot)
    requires Twice(d, routes, heads, d') && c in d'.entries && !Classify(d', c).Leave?
    ensures IsRoute(d, c) && RouteFor(d, c).level > LEVEL_MIN
  {
    hide Twice, Classify, RouteFor, Folds, WrittenOver, AliasesFollow, Audible, Untouched, Head, Messages;
    SameDevice(d, routes, heads, d');
    if Untouched(routes, c) {
      UntouchedIsLeft(d, routes, heads, d', c);
      assert false;
    } else {
      var h := TouchedBy(d, routes, heads, d', c);
      HeadHasRoute(d, routes, heads, d', h);
      RouteShape(d, h);
      MessageSpots(RouteFor(d, h), d.g);
      var all := Messages(RouteFor(d, h), d.g);
      assert all[0] in all;
      WrittenEntry(d, routes, heads, d', h, all[0]);
      if c != h {
        TouchedBeside(d, routes, heads, d', h, c);
        assert false;
      }
    }
  }

  /** What a route touches beside its own cell, its right half or an alias, is in no route of the second reading. */
  lemma TouchedBeside(d: Desk, routes: seq<Route>, heads: seq<Spot>, d': Desk, h: Spot, c: Spot)
    requires Twice(d, routes, heads, d') && IsRoute(d, h) && WellFormed(RouteFor(d, h)) && Touches(RouteFor(d, h), c) && c != h
    requires c in d'.entries
    ensures Classify(d', c).Leave?
  {
    hide Twice, Classify, RouteFor, Folds, WrittenOver, AliasesFollow, Audible, Untouched, Linked, Head;
    HeadHasRoute(d, routes, heads, d', h);
    RouteShape(d, h);
    var r := RouteFor(d, h);
    SameLinks(d, routes, heads, d', c);
    SameDevice(d, routes, heads, d');
    LinkedByOdd(d.seen, Output, c.0);
    LinkedByOdd(d.seen, d.kind, c.1);
    LinkedByOdd(d.seen, Output, h.0);
    LinkedByOdd(d.seen, d.kind, h.1);
    if |r.output| == 2 && r.stereo {
      AliasIsLeft(d', c);
    } else {
      RightHalfIsLeft(d', c);
    }
  }

  /** A right register over a linked source is read on its own in no way. */
  lemma RightHalfIsLeft(d: Desk, c: Spot)
    requires c in d.entries && c.0 % 2 == 0 && Linked(d.seen, d.kind, c.1) == Some(true)
    ensures Classify(d, c).Leave?
  {
    hide Linked, RoundTenth;
  }

  /** A head of the first reading that is read as a route again is a head again. */
  lemma HeadAgain(d: Desk, routes: seq<Route>, heads: seq<Spot>, d': Desk, h: Spot)
    requires Twice(d, routes, heads, d') && IsRoute(d, h) && RouteFor(d, h).level > LEVEL_MIN
    ensures Head(d', h)
  {
    hide Twice, Classify, RouteFor, Folds, WrittenOver, AliasesFollow, Audible, Untouched, Linked;
    AudibleAgain(d, routes, heads, d', h);
    HeadHasRoute(d, routes, heads, d', h);
    RouteShape(d, h);
    var l := (h.0 - 1, h.1);
    if h.0 % 2 == 0 && l in d'.entries && Classify(d', l) == AsSplit {
      SplitNeedsLinkedSource(d', l);
      SameLinks(d, routes, heads, d', h);
      SameDevice(d, routes, heads, d');
    }
  }

  /** The second reading's routes are the first one's above the floor, each from its own cell. */
  lemma SecondReading(d: Desk, routes: seq<Route>, heads: seq<Spot>, d': Desk, c: Spot)
    requires Twice(d, routes, heads, d')
    ensures IsRoute(d', c) <==> IsRoute(d, c) && RouteFor(d, c).level > LEVEL_MIN
    ensures IsRoute(d', c) ==> c in d'.entries && c in d.entries && RouteFor(d', c) == RouteFor(d, c)
  {
    hide Twice, Classify, RouteFor, Folds, WrittenOver, AliasesFollow, Audible, Untouched, Linked, Head;
    HeadIsEntry(d);
    HeadIsEntry(d');
    if IsRoute(d', c) {
      OnlyRoutesAgain(d, routes, heads, d', c);
      AudibleAgain(d, routes, heads, d', c);
    }
    if IsRoute(d, c) && RouteFor(d, c).level > LEVEL_MIN {
      AudibleAgain(d, routes, heads, d', c);
      HeadAgain(d, routes, heads, d', c);
    }
  }

  /** What was read from the reports as a route at the floor is exactly what rounds to it. */
  lemma FloorRoutes(d: Desk, h: Spot)
    requires d.kind != Output
    ensures IsRoute(d, h) && RouteFor(d, h).level <= LEVEL_MIN <==> RoundsToTheFloor(d, h)
  {
    hide RoundTenth, Linked;
    HeadIsEntry(d);
    if RoundsToTheFloor(d, h) {
      var l := (h.0 - 1, h.1);
      if h.0 % 2 == 0 && l in d.entries && Classify(d, l) == AsSplit {
        SplitNeedsLinkedSource(d, l);
      }
      FloorLevel(d.entries[h].level);
    }
  }

  lemma FloorLevel(x: real)
    requires RoundTenth(x) <= LEVEL_MIN
    ensures x <= LEVEL_MAX
  {
  }

  /**
   * Reading a device, writing what was read over it, and reading again gives the same routes in the
   * same order exactly when no cell reported as a linked pair or a single channel rounds to the
   * mute floor. What no route touches may be anything, as long as it is reported as before; it is
   * omitted again for the same reason.
   */
  lemma DumpIsAFixedPointExactly(
      d: Desk, routes: seq<Route>, heads: seq<Spot>, early: seq<Omission>, left: seq<Omission>,
      d': Desk, routes': seq<Route>, heads': seq<Spot>, early': seq<Omission>, left': seq<Omission>)
    requires IsGainOffset(d.g) && d.kind != Output && WholePairs(d.device, d.kind)
    requires Reading(d, routes, heads, early, left) && Reading(d', routes', heads', early', left')
    requires d'.device == d.device && d'.kind == d.kind && d'.g == d.g && AllWellFormed(routes)
    requires WrittenOver(d.seen, d'.seen, routes, d.device, d.kind, d.g) && AliasesFollow(d'.seen, routes, d.device, d.kind, d.g)
    ensures routes' == routes <==> NoneAtTheFloor(d)
    ensures forall c :: c in heads' <==> c in heads && !RoundsToTheFloor(d, c)
    ensures forall o: Omission :: Untouched(routes, o.spot) ==> (o in left' <==> o in left)
  {
    hide *;
    BothReadings(d, routes, heads, early, left, d', routes', heads', early', left');
    forall c
      ensures IsRoute(d', c) <==> IsRoute(d, c) && !RoundsToTheFloor(d, c)
      ensures IsRoute(d', c) ==> ReadAlike(d, d', c)
      ensures RoundsToTheFloor(d, c) ==> IsRoute(d, c)
    {
      ReadAgain(d, routes, heads, d', c);
    }
    if NoneAtTheFloor(d) {
      NoneRounds(d);
      SortedListsAgree(heads', heads);
      SameRoutes(d, routes, heads, d', routes', heads');
    }
    if routes' == routes {
      EveryHeadAgain(d, routes, heads, d', heads');
    }
    forall o: Omission | Untouched(routes, o.spot) ensures o in left' <==> o in left {
      LeftAgain(d, routes, heads, early, left, d', routes', heads', early', left', o);
    }
  }

  /** Read as the same route both times, and above the floor. */
  ghost predicate ReadAlike(d: Desk, d': Desk, c: Spot) {
    && c in d.entries && c in d'.entries && !Classify(d, c).Leave? && !Classify(d', c).Leave?
    && RouteFor(d', c) == RouteFor(d, c) && RouteFor(d, c).level > LEVEL_MIN
  }

  lemma ReadAgain(d: Desk, routes: seq<Route>, heads: seq<Spot>, d': Desk, c: Spot)
    requires Twice(d, routes, heads, d')
    ensures IsRoute(d', c) <==> IsRoute(d, c) && !RoundsToTheFloor(d, c)
    ensures IsRoute(d', c) ==> ReadAlike(d, d', c)
    ensures RoundsToTheFloor(d, c) ==> IsRoute(d, c)
  {
    hide Classify, RouteFor, Folds, WrittenOver, AliasesFollow, Audible, Head, RoundsToTheFloor, WholePairs;
    SecondReading(d, routes, heads, d', c);
    FloorRoutes(d, c);
  }

  lemma NoneRounds(d: Desk)
    requires NoneAtTheFloor(d)
    ensures forall c :: !RoundsToTheFloor(d, c)
  {
    hide RoundsToTheFloor;
  }

  lemma BothReadings(
      d: Desk, routes: seq<Route>, heads: seq<Spot>, early: seq<Omission>, left: seq<Omission>,
      d': Desk, routes': seq<Route>, heads': seq<Spot>, early': seq<Omission>, left': seq<Omission>)
    requires IsGainOffset(d.g) && d.kind != Output && WholePairs(d.device, d.kind)
    requires Reading(d, routes, heads, early, left) && Reading(d', routes', heads', early', left')
    requires d'.device == d.device && d'.kind == d.kind && d'.g == d.g && AllWellFormed(routes)
    requires WrittenOver(d.seen, d'.seen, routes, d.device, d.kind, d.g) && AliasesFollow(d'.seen, routes, d.device, d.kind, d.g)
    ensures Twice(d, routes, heads, d') && Increasing(heads) && Increasing(heads')
    ensures (forall c :: c in heads <==> IsRoute(d, c)) && (forall c :: c in heads' <==> IsRoute(d', c))
    ensures RoutesOf(d, routes, heads) && RoutesOf(d', routes', heads')
  {
    hide Classify, RouteFor, Head, Folds, Audible, WrittenOver, AliasesFollow, WholePairs, MixCell, Contradictory, Increasing;
  }

  ghost predicate RoutesOf(d: Desk, routes: seq<Route>, heads: seq<Spot>) {
    && |routes| == |heads|
    && forall i :: 0 <= i < |heads| ==> heads[i] in d.entries && !Classify(d, heads[i]).Leave? && routes[i] == RouteFor(d, heads[i])
  }

  lemma SameRoutes(d: Desk, routes: seq<Route>, heads: seq<Spot>, d': Desk, routes': seq<Route>, heads': seq<Spot>)
    requires RoutesOf(d, routes, heads) && RoutesOf(d', routes', heads') && heads' == heads
    requires forall c :: c in heads ==> ReadAlike(d, d', c)
    ensures routes' == routes
  {
    hide Classify, RouteFor, Head;
    forall i | 0 <= i < |routes| ensures routes'[i] == routes[i] {
      assert heads[i] in heads;
    }
  }

  /** Equal readings lose no route to the floor. */
  lemma EveryHeadAgain(d: Desk, routes: seq<Route>, heads: seq<Spot>, d': Desk, heads': seq<Spot>)
    requires Twice(d, routes, heads, d') && RoutesOf(d, routes, heads) && RoutesOf(d', routes, heads')
    requires (forall c :: c in heads <==> IsRoute(d, c)) && (forall c :: c in heads' ==> ReadAlike(d, d', c))
    ensures NoneAtTheFloor(d)
  {
    hide Twice, Classify, RouteFor, Head, RoundsToTheFloor, IsRoute;
    forall i | 0 <= i < |heads| ensures RouteFor(d, heads[i]).level > LEVEL_MIN {
      assert heads'[i] in heads';
    }
    forall c ensures !RoundsToTheFloor(d, c) {
      FloorOfKind(d, routes, heads, d', c);
    }
  }

  lemma FloorOfKind(d: Desk, routes: seq<Route>, heads: seq<Spot>, d': Desk, c: Spot)
    requires Twice(d, routes, heads, d')
    ensures RoundsToTheFloor(d, c) ==> IsRoute(d, c) && c in d.entries && !Classify(d, c).Leave? && RouteFor(d, c).level <= LEVEL_MIN
  {
    hide Classify, RouteFor, Folds, WrittenOver, AliasesFollow, Audible, RoundsToTheFloor, WholePairs;
    FloorRoutes(d, c);
  }

  lemma LeftAgain(
      d: Desk, routes: seq<Route>, heads: seq<Spot>, early: seq<Omission>, left: seq<Omission>,
      d': Desk, routes': seq<Route>, heads': seq<Spot>, early': seq<Omission>, left': seq<Omission>, o: Omission)
    requires Twice(d, routes, heads, d') && Reading(d, routes, heads, early, left) && Reading(d', routes', heads', early', left')
    requires Untouched(routes, o.spot)
    ensures o in left' <==> o in left
  {
    hide Twice, Classify, RouteFor, Head, Folds, Audible, Contradictory, MixCell, Increasing, Untouched;
    var c := o.spot;
    HeadIsEntry(d);
    HeadIsEntry(d');
    UntouchedEntry(d, routes, heads, d', c);
    if c in d.entries {
      assert c in d'.entries;
      UntouchedIsLeft(d, routes, heads, d', c);
      UntouchedIsHead(d, routes, heads, d', c);
    }
  }

  lemma UntouchedIsHead(d: Desk, routes: seq<Route>, heads: seq<Spot>, d': Desk, c: Spot)
    requires Twice(d, routes, heads, d') && Untouched(routes, c) && c in d'.entries
    ensures Head(d', c)
  {
    hide Twice, Classify, RouteFor, Folds, WrittenOver, AliasesFollow, Audible, Untouched, Linked;
    var l := (c.0 - 1, c.1);
    if c.0 % 2 == 0 && l in d'.entries && Classify(d', l) == AsSplit {
      assert (l.0 + 1, l.1) == c && Head(d', l);
      OnlyRoutesAgain(d, routes, heads, d', l);
      AudibleAgain(d, routes, heads, d', l);
      TouchesItsOwn(d, routes, heads, d', l);
    }
  }

  /** A level of -64.96 dB is audible, is read as -65.0, and is written back as silence. */
  lemma LevelRoundsToTheFloor(g: real)
    requires IsGainOffset(g)
    ensures var device := Device([1], [1], []);
      var seen := Seen(map[(1, 1) := [FloatValue(-64.96), IntValue(0)]], map[(Output, 1) := [IntValue(0)], (Input, 1) := [IntValue(0)]]);
      var d := Desk(map[(1, 1) := Level(-64.96, 0)], seen, device, Input, g);
      var read := Route("", Input, [1], [1], LEVEL_MIN, None, true, 0, [], false);
      Reading(d, [read], [(1, 1)], [], []) && RoundsToTheFloor(d, (1, 1)) && read.level == LEVEL_MIN
  {
    var device := Device([1], [1], []);
    var seen := Seen(map[(1, 1) := [FloatValue(-64.96), IntValue(0)]], map[(Output, 1) := [IntValue(0)], (Input, 1) := [IntValue(0)]]);
    var d := Desk(map[(1, 1) := Level(-64.96, 0)], seen, device, Input, g);
    var read := Route("", Input, [1], [1], LEVEL_MIN, None, true, 0, [], false);
    assert MixCell((1, 1), seen.mix[(1, 1)], device, Input, g) == Ok(Some(Level(-64.96, 0)));
    assert Audible(seen, device, Input, g) == d.entries;
    assert Linked(seen, Output, 1) == Some(false) && Linked(seen, Input, 1) == Some(false);
    assert RoundTenth(-64.96) == LEVEL_MIN;
    assert Classify(d, (1, 1)) == AsMono;
    assert RouteFor(d, (1, 1)) == read;
    NothingFolded(d.entries, seen, Input);
    assert Head(d, (1, 1));
    assert read in [read];
  }

  lemma NothingFolded(entries: map<Spot, Level>, seen: Seen, kind: Family)
    requires forall c :: c in entries ==> entries[c].pan == 0
    ensures Folds(entries, entries, seen, kind) && forall key :: !Contradictory(entries, seen, kind, key)
  {
  }
}
