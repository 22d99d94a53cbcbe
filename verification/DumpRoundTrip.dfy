/** Declared routes survive being written, reported and read back. */
module DumpRoundTrip {
  import opened Wrappers
  import opened MixModel
  import opened Base
  import opened Dump

  predicate IsTenth(x: real) { (10.0 * x).Floor as real == 10.0 * x }

  /** What a declared route writes: its pair register, its compensated hard-panned halves, or its one cell. */
  function Messages(r: Route, g: real): seq<(Spot, Level)>
    requires WellFormed(r)
  {
    if |r.output| == 2 && !r.stereo then
      var unlinked := if r.level <= LEVEL_MIN then LEVEL_MIN else (if r.level < 0.0 then r.level else 0.0) + g;
      [((r.output[0], r.source[0]), Level(unlinked, -100)), ((r.output[1], r.source[0]), Level(unlinked, 100))]
    else [((r.output[0], r.source[0]), Level(r.level, if |r.output| == 2 then r.pan else 0))]
  }

  /** A route as a reading can express it: no name, volume or origin, and no link choice for a single channel. */
  function Essence(r: Route): Route {
    Route("", r.kind, r.source, r.output, r.level, None, |r.output| == 1 || r.stereo, r.pan, [], false)
  }

  /** What the configuration accepts of one route of this kind on this device. */
  predicate Declarable(r: Route, device: Device, kind: Family) {
    && WellFormed(r) && r.kind == kind
    && (forall c :: c in r.output ==> c in device.outputs)
    && (forall c :: c in r.source ==> c in device.Channels(kind))
    && IsTenth(r.level) && LEVEL_MIN <= r.level <= LEVEL_MAX
    && (|r.output| == 2 && !r.stereo ==> r.level <= 0.0)
    && -100 <= r.pan <= 100
    && (r.pan != 0 ==> |r.output| == 2 && r.stereo && r.level > LEVEL_MIN)
  }

  /** Routes that agree on links and share no register. */
  ghost predicate DeclarableDesk(routes: seq<Route>, device: Device, kind: Family) {
    && AllWellFormed(routes)
    && (forall r :: r in routes ==> Declarable(r, device, kind))
    && LinkConsistent(routes)
    && forall i, j :: 0 <= i < j < |routes| ==> forall c :: c in RouteCells(routes[i]) ==> c !in RouteCells(routes[j])
  }

  /** A device that reports what the routes wrote: their links, their cells, and every other cell muted. */
  ghost predicate Reflects(seen: Seen, routes: seq<Route>, device: Device, kind: Family, g: real)
    requires AllWellFormed(routes)
  {
    && (forall l :: Requires(routes, l) ==> Linked(seen, l.family, l.channel) == Some(l.linked))
    && (forall r, m :: r in routes && m in Messages(r, g) ==> Reports(seen, m, device, kind, g))
    && (forall c :: c in seen.mix && !(exists r, m :: r in routes && m in Messages(r, g) && m.0 == c) ==>
        MixCell(c, seen.mix[c], device, kind, g) == Ok(None))
  }

  /** A written cell is reported at its level and balance; a silent one as muted. */
  ghost predicate Reports(seen: Seen, m: (Spot, Level), device: Device, kind: Family, g: real) {
    m.0 in seen.mix &&
    if m.1.level > LEVEL_MIN then seen.mix[m.0] == [FloatValue(m.1.level), IntValue(m.1.pan)]
    else MixCell(m.0, seen.mix[m.0], device, kind, g) == Ok(None)
  }

  // ---- rounding ----

  lemma TenthIsFixed(x: real)
    requires IsTenth(x)
    ensures RoundTenth(x) == x
  {
  }

  lemma RoundedIsTenth(x: real)
    ensures IsTenth(RoundTenth(x))
    ensures x > LEVEL_MIN ==> RoundTenth(x) >= LEVEL_MIN
    ensures x <= LEVEL_MAX ==> RoundTenth(x) <= LEVEL_MAX
  {
    var f := (10.0 * x).Floor;
    if RoundTenth(x) == f as real / 10.0 {
      TenthOf(f);
    } else {
      TenthOf(f + 1);
    }
  }

  lemma TenthOf(k: int)
    ensures 10.0 * (k as real / 10.0) == k as real && IsTenth(k as real / 10.0)
  {
    var x := k as real / 10.0;
    assert 10.0 * x == k as real;
  }

  // ---- the audible cells ----

  ghost predicate WrittenBy(routes: seq<Route>, g: real, c: Spot, v: Level)
    requires AllWellFormed(routes)
  {
    exists r :: r in routes && (c, v) in Messages(r, g)
  }

  lemma MessageIsAudible(r: Route, m: (Spot, Level), device: Device, kind: Family, g: real, seen: Seen)
    requires IsGainOffset(g) && Declarable(r, device, kind) && m in Messages(r, g) && Reports(seen, m, device, kind, g)
    ensures m.1.level > LEVEL_MIN <==> r.level > LEVEL_MIN
    ensures MixCell(m.0, seen.mix[m.0], device, kind, g) == if r.level > LEVEL_MIN then Ok(Some(m.1)) else Ok(None)
  {
    hide MixCell, Declarable, Messages;
    MessageFields(r, m, device, kind, g);
    if m.1.level > LEVEL_MIN {
      CellOfReport(m.0, m.1, device, kind, g);
    }
  }

  lemma MessageFields(r: Route, m: (Spot, Level), device: Device, kind: Family, g: real)
    requires IsGainOffset(g) && Declarable(r, device, kind) && m in Messages(r, g)
    ensures m.1.level > LEVEL_MIN <==> r.level > LEVEL_MIN
    ensures m.1.level <= (if g > LEVEL_MAX then g else LEVEL_MAX) && -100 <= m.1.pan <= 100
    ensures m.0.0 in device.outputs && m.0.1 in device.Channels(kind)
  {
    var all := Messages(r, g);
    var i :| 0 <= i < |all| && all[i] == m;
    var first, source := r.output[0], r.source[0];
    assert first in r.output && source in r.source;
    assert all[0].0 == (first, source);
    if |r.output| == 2 {
      var second := r.output[1];
      assert second in r.output;
      assert |all| == 2 ==> all[1].0 == (second, source);
    }
    assert m.0.0 in r.output && m.0.1 == source;
  }

  lemma CellOfReport(spot: Spot, v: Level, device: Device, kind: Family, g: real)
    requires IsGainOffset(g) && LEVEL_MIN < v.level <= (if g > LEVEL_MAX then g else LEVEL_MAX) && -100 <= v.pan <= 100
    requires spot.0 in device.outputs && spot.1 in device.Channels(kind)
    ensures MixCell(spot, [FloatValue(v.level), IntValue(v.pan)], device, kind, g) == Ok(Some(v))
  {
    var args := [FloatValue(v.level), IntValue(v.pan)];
    assert args[0] == FloatValue(v.level) && args[1] == IntValue(v.pan) && |args| == 2;
    assert v == Level(v.level, v.pan);
  }

  /** The audible reports of a reflecting device are exactly the cells of the audible routes. */
  lemma AudibleIsWritten(seen: Seen, routes: seq<Route>, device: Device, kind: Family, g: real, c: Spot)
    requires IsGainOffset(g) && DeclarableDesk(routes, device, kind) && Reflects(seen, routes, device, kind, g)
    ensures c in Audible(seen, device, kind, g) <==>
      exists r, m :: r in routes && r.level > LEVEL_MIN && m in Messages(r, g) && m.0 == c
    ensures forall r, m :: r in routes && r.level > LEVEL_MIN && m in Messages(r, g) && m.0 == c ==>
      c in Audible(seen, device, kind, g) && Audible(seen, device, kind, g)[c] == m.1
    ensures c in seen.mix ==> MixCell(c, seen.mix[c], device, kind, g).Ok?
  {
    hide MixCell, Messages, Reports, Declarable;
    forall r, m | r in routes && m in Messages(r, g)
      ensures m.0 in seen.mix
      ensures MixCell(m.0, seen.mix[m.0], device, kind, g) == if r.level > LEVEL_MIN then Ok(Some(m.1)) else Ok(None)
    {
      MessageIsAudible(r, m, device, kind, g, seen);
      ReportsIsReported(seen, m, device, kind, g);
    }
  }

  lemma ReportsIsReported(seen: Seen, m: (Spot, Level), device: Device, kind: Family, g: real)
    requires Reports(seen, m, device, kind, g)
    ensures m.0 in seen.mix
  {
  }

  /** The links a route states, as a reflecting device reports them at its cells. */
  lemma LinksReported(seen: Seen, routes: seq<Route>, device: Device, kind: Family, g: real, r: Route, m: (Spot, Level))
    requires DeclarableDesk(routes, device, kind) && Reflects(seen, routes, device, kind, g)
    requires r in routes && m in Messages(r, g)
    ensures Linked(seen, Output, m.0.0) == Some(|r.output| == 2 && r.stereo)
    ensures Linked(seen, kind, m.0.1) == Some(|r.output| == 2)
    ensures |r.output| == 2 ==> m.0.1 == r.source[0] && m.0.1 % 2 == 1
    ensures |r.output| == 2 && r.stereo ==> m.0 == (r.output[0], r.source[0]) && m.0.0 % 2 == 1
  {
    hide Reports, MixCell;
    assert Declarable(r, device, kind);
    var q := LinkRequirements(r);
    assert q[0] in q && q[1] in q;
    assert Requires(routes, q[0]) && Requires(routes, q[1]);
    LinkedByOdd(seen, Output, m.0.0);
    LinkedByOdd(seen, kind, m.0.1);
  }

  lemma LinkedByOdd(seen: Seen, family: Family, channel: int)
    ensures Linked(seen, family, Odd(channel)) == Linked(seen, family, channel)
  {
  }

  /** On a reflecting device there is nothing to fold. */
  lemma NothingToFold(seen: Seen, routes: seq<Route>, device: Device, kind: Family, g: real, c: Spot)
    requires IsGainOffset(g) && DeclarableDesk(routes, device, kind) && Reflects(seen, routes, device, kind, g)
    ensures var audible := Audible(seen, device, kind, g);
      Kept(audible, seen, kind, c) == Lookup(audible, c) && !Contradictory(audible, seen, kind, c)
  {
    hide Reflects, DeclarableDesk, Messages, Audible, Linked;
    var audible := Audible(seen, device, kind, g);
    if BothLinked(seen, kind, c) {
      forall a | a in Aliases(audible, Key(c)) ensures a == Key(c) {
        AudibleIsWritten(seen, routes, device, kind, g, a);
        RoutesWellFormed(routes, device, kind);
        var r, m :| r in routes && r.level > LEVEL_MIN && m in Messages(r, g) && m.0 == a;
        LinksReported(seen, routes, device, kind, g, r, m);
        LinkedByKey(seen, kind, c, a);
      }
      LinkedByKey(seen, kind, c, c);
      assert c in audible ==> c in Aliases(audible, Key(c));
      assert Agreed(audible, Key(c));
    }
    assert !Contradictory(audible, seen, kind, c) by {
      if Key(c) == c && BothLinked(seen, kind, c) {
        assert Agreed(audible, c);
      }
    }
  }

  lemma RoutesWellFormed(routes: seq<Route>, device: Device, kind: Family)
    requires DeclarableDesk(routes, device, kind)
    ensures AllWellFormed(routes) && forall r :: r in routes ==> Declarable(r, device, kind)
  {
  }

  lemma EntriesAreAudible(d: Desk, routes: seq<Route>)
    requires IsGainOffset(d.g) && DeclarableDesk(routes, d.device, d.kind)
    requires Reflects(d.seen, routes, d.device, d.kind, d.g)
    requires Folds(Audible(d.seen, d.device, d.kind, d.g), d.entries, d.seen, d.kind)
    ensures d.entries == Audible(d.seen, d.device, d.kind, d.g)
  {
    hide Reflects, DeclarableDesk, Audible, Kept;
    var audible := Audible(d.seen, d.device, d.kind, d.g);
    forall c ensures Lookup(d.entries, c) == Lookup(audible, c) {
      NothingToFold(d.seen, routes, d.device, d.kind, d.g, c);
    }
    assert forall c :: c in d.entries <==> c in audible by {
      forall c ensures c in d.entries <==> c in audible {
        assert Lookup(d.entries, c) == Lookup(audible, c);
      }
    }
    assert forall c :: c in d.entries ==> d.entries[c] == audible[c] by {
      forall c | c in d.entries ensures d.entries[c] == audible[c] {
        assert Lookup(d.entries, c) == Lookup(audible, c);
      }
    }
  }

  function FirstCell(r: Route): Spot
    requires WellFormed(r)
  {
    (r.output[0], r.source[0])
  }

  /** The entries of a desk are exactly the cells its audible routes wrote. */
  ghost predicate Holds(d: Desk, routes: seq<Route>)
    requires AllWellFormed(routes)
  {
    && (forall r, m :: r in routes && r.level > LEVEL_MIN && m in Messages(r, d.g) ==> m.0 in d.entries && d.entries[m.0] == m.1)
    && (forall c :: c in d.entries ==> exists r, m :: r in routes && r.level > LEVEL_MIN && m in Messages(r, d.g) && m.0 == c)
  }

  lemma EntriesHold(d: Desk, routes: seq<Route>)
    requires IsGainOffset(d.g) && DeclarableDesk(routes, d.device, d.kind)
    requires Reflects(d.seen, routes, d.device, d.kind, d.g)
    requires Folds(Audible(d.seen, d.device, d.kind, d.g), d.entries, d.seen, d.kind)
    ensures Holds(d, routes)
  {
    hide Reflects, Audible, Declarable, Folds, Messages;
    EntriesAreAudible(d, routes);
    forall c ensures c in d.entries <==> exists r, m :: r in routes && r.level > LEVEL_MIN && m in Messages(r, d.g) && m.0 == c
      ensures forall r, m :: r in routes && r.level > LEVEL_MIN && m in Messages(r, d.g) && m.0 == c ==>
        c in d.entries && d.entries[c] == m.1
    {
      AudibleIsWritten(d.seen, routes, d.device, d.kind, d.g, c);
    }
  }

  /** The links, level and balance a reading finds at the first cell of an audible route. */
  lemma FirstCellReported(d: Desk, routes: seq<Route>, r: Route)
    requires IsGainOffset(d.g) && DeclarableDesk(routes, d.device, d.kind) && Holds(d, routes)
    requires Reflects(d.seen, routes, d.device, d.kind, d.g)
    requires r in routes && r.level > LEVEL_MIN
    ensures Declarable(r, d.device, d.kind)
    ensures FirstCell(r) in d.entries && d.entries[FirstCell(r)] == Messages(r, d.g)[0].1
    ensures |r.output| == 2 && !r.stereo ==> (r.output[1], r.source[0]) in d.entries
    ensures |r.output| == 2 && !r.stereo ==> d.entries[(r.output[1], r.source[0])] == Messages(r, d.g)[1].1
    ensures Linked(d.seen, Output, r.output[0]) == Some(|r.output| == 2 && r.stereo)
    ensures Linked(d.seen, d.kind, r.source[0]) == Some(|r.output| == 2)
  {
    hide Reflects, Linked, MixCell, Declarable;
    assert Declarable(r, d.device, d.kind);
    MessageSpots(r, d.g);
    var all := Messages(r, d.g);
    assert all[0] in all;
    LinksReported(d.seen, routes, d.device, d.kind, d.g, r, all[0]);
    if |r.output| == 2 && !r.stereo {
      assert all[1] in all;
    }
  }

  lemma MessageSpots(r: Route, g: real)
    requires WellFormed(r)
    ensures Messages(r, g) != [] && Messages(r, g)[0].0 == FirstCell(r)
    ensures |r.output| == 2 && !r.stereo ==> |Messages(r, g)| == 2 && Messages(r, g)[1].0 == (r.output[1], r.source[0])
  {
  }

  /** An audible route reads back as itself from its first cell. */
  lemma RouteReadsBack(d: Desk, routes: seq<Route>, r: Route)
    requires IsGainOffset(d.g) && DeclarableDesk(routes, d.device, d.kind) && Holds(d, routes)
    requires Reflects(d.seen, routes, d.device, d.kind, d.g)
    requires r in routes && r.level > LEVEL_MIN
    ensures WellFormed(r) && FirstCell(r) in d.entries
    ensures !Classify(d, FirstCell(r)).Leave? && RouteFor(d, FirstCell(r)) == Essence(r)
    ensures (Classify(d, FirstCell(r)) == AsSplit) == (|r.output| == 2 && !r.stereo)
  {
    hide Reflects, Linked, MixCell, DeclarableDesk, Holds, RoundTenth, IsTenth;
    FirstCellReported(d, routes, r);
    TenthIsFixed(r.level);
    assert r.output[0] in r.output && r.source[0] in r.source;
    if |r.output| == 2 {
      assert r.output[1] in r.output && r.source[1] in r.source;
      if r.stereo {
        PairReadsBack(d, r);
      } else {
        SplitReadsBack(d, r);
      }
    }
  }

  lemma PairReadsBack(d: Desk, r: Route)
    requires WellFormed(r) && |r.output| == 2 && r.stereo && r.kind == d.kind && FirstCell(r) in d.entries
    requires d.entries[FirstCell(r)] == Level(r.level, r.pan) && RoundTenth(r.level) == r.level && LEVEL_MIN < r.level <= LEVEL_MAX
    requires r.output[1] in d.device.outputs && r.source[1] in d.device.Channels(d.kind)
    requires Linked(d.seen, Output, r.output[0]) == Some(true) && Linked(d.seen, d.kind, r.source[0]) == Some(true)
    ensures Classify(d, FirstCell(r)) == AsPair && RouteFor(d, FirstCell(r)) == Essence(r)
  {
    hide Linked, RoundTenth;
    assert PairPosition(d, FirstCell(r));
    assert r.output == [r.output[0], r.output[0] + 1] && r.source == [r.source[0], r.source[0] + 1];
  }

  lemma SplitReadsBack(d: Desk, r: Route)
    requires IsGainOffset(d.g) && WellFormed(r) && |r.output| == 2 && !r.stereo && r.kind == d.kind && r.pan == 0
    requires FirstCell(r) in d.entries && (r.output[1], r.source[0]) in d.entries
    requires d.entries[FirstCell(r)] == Level(r.level + d.g, -100)
    requires d.entries[(r.output[1], r.source[0])] == Level(r.level + d.g, 100)
    requires RoundTenth(r.level) == r.level && LEVEL_MIN < r.level <= 0.0
    requires r.output[1] in d.device.outputs && r.source[1] in d.device.Channels(d.kind)
    requires Linked(d.seen, Output, r.output[0]) == Some(false) && Linked(d.seen, d.kind, r.source[0]) == Some(true)
    ensures Classify(d, FirstCell(r)) == AsSplit && RouteFor(d, FirstCell(r)) == Essence(r)
  {
    hide Linked, RoundTenth;
    var c := FirstCell(r);
    RoundMono(r.level + d.g);
    assert PairPosition(d, c) && HasRightHalf(d, c);
    assert d.entries[c].level - d.g == r.level;
    assert r.output == [r.output[0], r.output[0] + 1] && r.source == [r.source[0], r.source[0] + 1];
  }

  lemma RoundMono(x: real)
    requires x > -64.0
    ensures RoundTenth(x) > LEVEL_MIN
  {
  }

  /** Every reading of a reflecting device starts at the first cell of an audible route. */
  lemma HeadsAreFirstCells(d: Desk, routes: seq<Route>, c: Spot)
    requires IsGainOffset(d.g) && DeclarableDesk(routes, d.device, d.kind) && Holds(d, routes)
    requires Reflects(d.seen, routes, d.device, d.kind, d.g)
    ensures Head(d, c) <==> exists r :: r in routes && r.level > LEVEL_MIN && WellFormed(r) && FirstCell(r) == c
  {
    hide Reflects, DeclarableDesk, Classify, Messages, Declarable, Head;
    RoutesWellFormed(routes, d.device, d.kind);
    HeadIsEntry(d);
    if Head(d, c) {
      var r, m :| r in routes && r.level > LEVEL_MIN && m in Messages(r, d.g) && m.0 == c;
      MessageSpots(r, d.g);
      RouteReadsBack(d, routes, r);
      SecondCell(r, d.g, m);
      if c != FirstCell(r) {
        RightHalfIsNotHead(d, FirstCell(r), c);
      }
    }
    if r :| r in routes && r.level > LEVEL_MIN && WellFormed(r) && FirstCell(r) == c {
      RouteReadsBack(d, routes, r);
      FirstCellIsHead(d, routes, r);
    }
  }

  lemma RightHalfIsNotHead(d: Desk, c: Spot, right: Spot)
    requires c in d.entries && Classify(d, c) == AsSplit && c.0 % 2 == 1 && right == (c.0 + 1, c.1)
    ensures !Head(d, right)
  {
    hide Classify;
    assert (right.0 - 1, right.1) == c;
  }

  /** A message is at the first cell, or at the right half of a split route. */
  lemma SecondCell(r: Route, g: real, m: (Spot, Level))
    requires WellFormed(r) && m in Messages(r, g)
    ensures m.0 == FirstCell(r)
      || (|r.output| == 2 && !r.stereo && m.0 == (FirstCell(r).0 + 1, FirstCell(r).1) && FirstCell(r).0 % 2 == 1)
  {
  }

  lemma FirstCellIsHead(d: Desk, routes: seq<Route>, r: Route)
    requires IsGainOffset(d.g) && DeclarableDesk(routes, d.device, d.kind) && Holds(d, routes)
    requires Reflects(d.seen, routes, d.device, d.kind, d.g)
    requires r in routes && r.level > LEVEL_MIN && WellFormed(r)
    ensures Head(d, FirstCell(r))
  {
    hide Reflects, DeclarableDesk, Holds, Linked, Declarable, RoundTenth;
    var c := FirstCell(r);
    FirstCellReported(d, routes, r);
    var left := (c.0 - 1, c.1);
    if c.0 % 2 == 0 && left in d.entries && Classify(d, left) == AsSplit {
      SplitNeedsLinkedSource(d, left);
    }
  }

  lemma SplitNeedsLinkedSource(d: Desk, c: Spot)
    requires c in d.entries && Classify(d, c) == AsSplit
    ensures Linked(d.seen, d.kind, c.1) == Some(true)
  {
  }

  /**
   * Round trip: routes written to a device that reports them read back as exactly those routes
   * above the mute floor, with nothing omitted.
   */
  lemma RoundTrip(d: Desk, declared: seq<Route>, routes: seq<Route>, heads: seq<Spot>, early: seq<Omission>, left: seq<Omission>)
    requires IsGainOffset(d.g) && DeclarableDesk(declared, d.device, d.kind)
    requires Reflects(d.seen, declared, d.device, d.kind, d.g)
    requires Reading(d, routes, heads, early, left)
    ensures early == [] && left == []
    ensures forall x :: x in routes <==> exists r :: r in declared && r.level > LEVEL_MIN && x == Essence(r)
    ensures forall c :: c in heads <==> exists r :: r in declared && r.level > LEVEL_MIN && WellFormed(r) && FirstCell(r) == c
  {
    hide Reflects, DeclarableDesk, Holds, Classify, RouteFor, Essence, FirstCell, Head, Contradictory, MixCell, Folds, Audible;
    EntriesHold(d, declared);
    RoutesWellFormed(declared, d.device, d.kind);
    forall c
      ensures Head(d, c) <==> exists r :: r in declared && r.level > LEVEL_MIN && WellFormed(r) && FirstCell(r) == c
    {
      HeadsAreFirstCells(d, declared, c);
    }
    forall r | r in declared && r.level > LEVEL_MIN
      ensures FirstCell(r) in heads && FirstCell(r) in d.entries && !Classify(d, FirstCell(r)).Leave?
      ensures RouteFor(d, FirstCell(r)) == Essence(r)
    {
      RouteReadsBack(d, declared, r);
      assert Head(d, FirstCell(r));
    }
    NoOmissions(d, declared, early, left);
  }

  lemma NoOmissions(d: Desk, declared: seq<Route>, early: seq<Omission>, left: seq<Omission>)
    requires IsGainOffset(d.g) && DeclarableDesk(declared, d.device, d.kind) && Holds(d, declared)
    requires Reflects(d.seen, declared, d.device, d.kind, d.g)
    requires forall o :: o in early ==>
      ((o.why == BadCell && o.spot in d.seen.mix && MixCell(o.spot, d.seen.mix[o.spot], d.device, d.kind, d.g).Err?)
       || (o.why == ContradictoryAliases && Contradictory(Audible(d.seen, d.device, d.kind, d.g), d.seen, d.kind, o.spot)))
    requires forall o :: o in left ==> Head(d, o.spot) && Classify(d, o.spot) == Leave(o.why)
    ensures early == [] && left == []
  {
    hide Reflects, DeclarableDesk, Holds, Classify, Head, Contradictory, MixCell, Audible;
    if early != [] {
      var o := early[0];
      assert o in early;
      AudibleIsWritten(d.seen, declared, d.device, d.kind, d.g, o.spot);
      NothingToFold(d.seen, declared, d.device, d.kind, d.g, o.spot);
    }
    if left != [] {
      var o := left[0];
      assert o in left;
      HeadsAreFirstCells(d, declared, o.spot);
      var r :| r in declared && r.level > LEVEL_MIN && WellFormed(r) && FirstCell(r) == o.spot;
      RouteReadsBack(d, declared, r);
    }
  }
}
