/** The routes a device's reported matrix implies. */
module Dump {
  import opened Wrappers
  import opened MixModel
  import opened Base

  /** One OSC argument as a report carries it. */
  datatype Value = IntValue(i: int) | FloatValue(x: real) | MinusInfinity | NotFinite | Text(s: string)

  type Args = seq<Value>

  /** A matrix position of the kind being read. */
  type Spot = (int, int)

  datatype Level = Level(level: real, pan: int)

  /** Reports of one matrix kind by position, and the stereo flags by family and channel. */
  datatype Seen = Seen(mix: map<Spot, Args>, stereo: map<(Family, int), Args>)

  datatype Problem = BadCell | ContradictoryAliases | BalanceRoundsToMute | LinkUnknown | NotExpressible

  datatype Omission = Omission(spot: Spot, why: Problem)

  /** What the model needs of 20 * log10(2) dB, the compensation an unlinked pair is written with. */
  predicate IsGainOffset(g: real) { 6.02 < g < 6.03 }

  /** The link as the device gave it; without a report, or with one of another shape, unknown rather than off. */
  function Linked(seen: Seen, family: Family, channel: int): Option<bool> {
    var odd := Odd(channel);
    if (family, odd) !in seen.stereo || seen.stereo[(family, odd)] == [] then None
    else
      var value := seen.stereo[(family, odd)][0];
      var partner := if (family, odd + 1) in seen.stereo then seen.stereo[(family, odd + 1)] else [];
      if !value.IntValue? || !(value.i == 0 || value.i == 1) then None
      else if partner != [] && partner[0] != value then None
      else Some(value.i == 1)
  }

  predicate Silent(seen: Seen, family: Family, channel: int) {
    (family, channel) in seen.stereo ==> seen.stereo[(family, channel)] == []
  }

  predicate SaysLinked(seen: Seen, family: Family, channel: int, linked: bool) {
    !Silent(seen, family, channel) && (family, channel) in seen.stereo
    && seen.stereo[(family, channel)][0] == IntValue(if linked then 1 else 0)
  }

  /** The left channel reports the link, and the right one says nothing else. */
  predicate PairSays(seen: Seen, family: Family, left: int, linked: bool) {
    SaysLinked(seen, family, left, linked) && (Silent(seen, family, left + 1) || SaysLinked(seen, family, left + 1, linked))
  }

  /** Only a report makes a link known: silence, another shape or a contradicting partner leave it unknown. */
  lemma LinkedAsReported(seen: Seen, family: Family, channel: int, linked: bool)
    ensures Linked(seen, family, channel) == Some(linked) <==> PairSays(seen, family, Odd(channel), linked)
  {
  }

  function Finite(v: Value): Option<real> {
    match v
    case IntValue(i) => Some(i as real)
    case FloatValue(x) => Some(x)
    case _ => None
  }

  /** One reported cell: its level and balance, nothing for a muted one, an error for a malformed one. */
  function MixCell(spot: Spot, args: Args, device: Device, kind: Family, g: real): Result<Option<Level>, Problem> {
    if spot.0 !in device.outputs || spot.1 !in device.Channels(kind) then Err(BadCell)
    else if args == [] then Err(BadCell)
    else if args[0] == MinusInfinity then Ok(None)
    else
      match Finite(args[0])
      case None => Err(BadCell)
      case Some(level) =>
        if level <= LEVEL_MIN then Ok(None)
        else if level > (if g > LEVEL_MAX then g else LEVEL_MAX) + 0.00001 then Err(BadCell)
        else if |args| < 2 then Err(BadCell)
        else if !args[1].IntValue? || !(-100 <= args[1].i <= 100) then Err(BadCell)
        else Ok(Some(Level(level, args[1].i)))
  }

  predicate Numeric(v: Value, level: real) {
    v == FloatValue(level) || (v.IntValue? && v.i as real == level)
  }

  /** Which reports are audible, and with what level and balance; which are silent; every other one is malformed. */
  lemma MixCellExactly(spot: Spot, args: Args, device: Device, kind: Family, g: real, level: real, pan: int)
    ensures var r, there := MixCell(spot, args, device, kind, g), spot.0 in device.outputs && spot.1 in device.Channels(kind) && args != [];
      && (r == Ok(Some(Level(level, pan))) <==>
            && there && |args| >= 2 && Numeric(args[0], level) && args[1] == IntValue(pan)
            && -65.0 < level && (level <= 6.00001 || level <= g + 0.00001) && -100 <= pan && pan <= 100)
      && (there && (args[0] == MinusInfinity || (Numeric(args[0], level) && level <= -65.0)) ==> r == Ok(None))
      && (r == Ok(None) ==> there && (args[0] == MinusInfinity || args[0].IntValue? || args[0].FloatValue?))
      && (r == Ok(None) && Numeric(args[0], level) ==> level <= -65.0)
      && (r.Err? ==> r.error == BadCell)
  {
  }

  function Audible(seen: Seen, device: Device, kind: Family, g: real): map<Spot, Level> {
    map c | c in seen.mix && MixCell(c, seen.mix[c], device, kind, g).Ok? && MixCell(c, seen.mix[c], device, kind, g).value.Some?
      :: MixCell(c, seen.mix[c], device, kind, g).value.value
  }

  /** The audible part of a report table. Each report that cannot be read is omitted by name, once. */
  method MixEntries(seen: Seen, device: Device, kind: Family, g: real) returns (entries: map<Spot, Level>, omitted: seq<Omission>)
    ensures entries == Audible(seen, device, kind, g)
    ensures forall o :: o in omitted <==>
      (o.why == BadCell && o.spot in seen.mix && MixCell(o.spot, seen.mix[o.spot], device, kind, g).Err?)
    ensures forall i, j :: 0 <= i < j < |omitted| ==> omitted[i] != omitted[j]
  {
    hide MixCell;
    entries, omitted := map[], [];
    var rest := seen.mix.Keys;
    while rest != {}
      invariant rest <= seen.mix.Keys
      invariant forall c :: c in entries <==> c in Audible(seen, device, kind, g) && c !in rest
      invariant forall c :: c in entries ==> entries[c] == Audible(seen, device, kind, g)[c]
      invariant forall o :: o in omitted <==>
        (o.why == BadCell && o.spot in seen.mix && o.spot !in rest && MixCell(o.spot, seen.mix[o.spot], device, kind, g).Err?)
      invariant forall i, j :: 0 <= i < j < |omitted| ==> omitted[i] != omitted[j]
      decreases |rest|
    {
      var c :| c in rest;
      match MixCell(c, seen.mix[c], device, kind, g) {
        case Err(why) =>
          MixCellErrors(c, seen.mix[c], device, kind, g);
          assert Omission(c, why) !in omitted;
          omitted := omitted + [Omission(c, why)];
        case Ok(None) =>
        case Ok(Some(level)) =>
          entries := entries[c := level];
      }
      rest := rest - {c};
    }
  }

  lemma MixCellErrors(spot: Spot, args: Args, device: Device, kind: Family, g: real)
    ensures MixCell(spot, args, device, kind, g).Err? ==> MixCell(spot, args, device, kind, g).error == BadCell
  {
  }

  // ---- folding linked aliases ----

  function Key(c: Spot): Spot { (Odd(c.0), Odd(c.1)) }

  predicate BothLinked(seen: Seen, kind: Family, c: Spot) {
    Linked(seen, Output, c.0) == Some(true) && Linked(seen, kind, c.1) == Some(true)
  }

  function Aliases(entries: map<Spot, Level>, key: Spot): set<Spot> {
    set c | c in entries && Key(c) == key
  }

  predicate Balanced(entries: map<Spot, Level>, key: Spot) {
    exists c :: c in Aliases(entries, key) && entries[c].pan != 0
  }

  predicate Agreed(entries: map<Spot, Level>, key: Spot) {
    forall c, d :: c in Aliases(entries, key) && d in Aliases(entries, key) ==> entries[c] == entries[d]
  }

  /** What a position holds once linked aliases are folded: a balanced block keeps its agreed register, or nothing. */
  ghost function Kept(entries: map<Spot, Level>, seen: Seen, kind: Family, c: Spot): Option<Level> {
    var key := Key(c);
    if BothLinked(seen, kind, c) && Balanced(entries, key) then
      if c == key && Agreed(entries, key) then
        var a :| a in Aliases(entries, key);
        Some(entries[a])
      else None
    else if c in entries then Some(entries[c])
    else None
  }

  ghost predicate Folds(entries: map<Spot, Level>, result: map<Spot, Level>, seen: Seen, kind: Family) {
    forall c :: Lookup(result, c) == Kept(entries, seen, kind, c)
  }

  /** The linked aliases of the entries, by the register they fold onto. */
  method GroupAliases(entries: map<Spot, Level>, seen: Seen, kind: Family) returns (groups: map<Spot, set<Spot>>)
    ensures forall k :: k in groups <==> exists c :: c in entries && BothLinked(seen, kind, c) && Key(c) == k
    ensures forall k :: k in groups ==> groups[k] == Aliases(entries, k)
  {
    hide BothLinked, Key;
    groups := map[];
    var rest := entries.Keys;
    while rest != {}
      invariant rest <= entries.Keys
      invariant forall k :: k in groups <==> exists c :: c in entries && c !in rest && BothLinked(seen, kind, c) && Key(c) == k
      invariant forall k, c :: k in groups ==>
        (c in groups[k] <==> c in entries && c !in rest && BothLinked(seen, kind, c) && Key(c) == k)
      decreases |rest|
    {
      var c :| c in rest;
      ghost var before, was := groups, rest;
      rest := rest - {c};
      if BothLinked(seen, kind, c) {
        var key := Key(c);
        groups := groups[key := (if key in groups then groups[key] else {}) + {c}];
        forall k, d | k in groups
          ensures d in groups[k] <==> d in entries && d !in rest && BothLinked(seen, kind, d) && Key(d) == k
        {
        }
      }
    }
    forall k | k in groups ensures groups[k] == Aliases(entries, k) {
      var c :| c in entries && BothLinked(seen, kind, c) && Key(c) == k;
      forall d | d in Aliases(entries, k) ensures BothLinked(seen, kind, d) {
        LinkedByKey(seen, kind, c, d);
      }
    }
  }

  lemma LinkedByKey(seen: Seen, kind: Family, c: Spot, d: Spot)
    requires Key(c) == Key(d)
    ensures BothLinked(seen, kind, c) == BothLinked(seen, kind, d)
    ensures Key(Key(c)) == Key(c) && BothLinked(seen, kind, Key(c)) == BothLinked(seen, kind, c)
  {
  }

  /** One group: untouched without a balance, else its agreed register or nothing. */
  method FoldGroup(entries: map<Spot, Level>, before: map<Spot, Level>, group: set<Spot>, key: Spot)
      returns (after: map<Spot, Level>, contradiction: bool, ghost cell: Spot)
    requires group == Aliases(entries, key) && group != {}
    ensures contradiction <==> Balanced(entries, key) && !Agreed(entries, key)
    ensures cell in group
    ensures after == if !Balanced(entries, key) then before
      else if Agreed(entries, key) then (before - group)[key := entries[cell]] else before - group
  {
    hide Agreed, Key;
    var first :| first in group;
    cell := first;
    after, contradiction := before, false;
    if exists c :: c in group && entries[c].pan != 0 {
      contradiction := exists d :: d in group && entries[d] != entries[first];
      AgreedWithOne(entries, key, first);
      after := before - group;
      if !contradiction {
        after := after[key := entries[first]];
      }
    }
  }

  /** Keep one register of each group that a link makes stand for the same balance; a group that disagrees stays as it is and is omitted by name. */
  method CanonicalizeBalancedCells(entries: map<Spot, Level>, seen: Seen, kind: Family)
      returns (result: map<Spot, Level>, omitted: seq<Omission>)
    ensures Folds(entries, result, seen, kind)
    ensures forall o :: o in omitted <==> o.why == ContradictoryAliases && Contradictory(entries, seen, kind, o.spot)
    ensures forall i, j :: 0 <= i < j < |omitted| ==> omitted[i] != omitted[j]
  {
    hide BothLinked, Key, FoldedExcept, Kept, Agreed, Balanced, Folds, Contradictory;
    var groups := GroupAliases(entries, seen, kind);
    result, omitted := entries, [];
    var rest := groups.Keys;
    NothingFolded(entries, seen, kind, groups.Keys);
    while rest != {}
      invariant rest <= groups.Keys
      invariant FoldedExcept(entries, result, seen, kind, groups.Keys, rest)
      invariant forall o :: o in omitted <==>
        (o.why == ContradictoryAliases && o.spot in groups && o.spot !in rest && Balanced(entries, o.spot) && !Agreed(entries, o.spot))
      invariant forall i, j :: 0 <= i < j < |omitted| ==> omitted[i] != omitted[j]
      decreases |rest|
    {
      var key :| key in rest;
      GroupKey(entries, seen, kind, key);
      ghost var before := result;
      var contradiction; ghost var cell;
      result, contradiction, cell := FoldGroup(entries, result, groups[key], key);
      if Balanced(entries, key) {
        BalancedGroupFolds(entries, before, result, seen, kind, groups.Keys, rest, key, cell);
      } else {
        UnbalancedGroupStays(entries, before, seen, kind, groups.Keys, rest, key);
      }
      rest := rest - {key};
      if contradiction {
        omitted := omitted + [Omission(key, ContradictoryAliases)];
      }
    }
    EverythingFolded(entries, result, groups, seen, kind);
    forall o: Omission
      ensures o in omitted <==> o.why == ContradictoryAliases && Contradictory(entries, seen, kind, o.spot)
    {
      GroupedMeansLinked(entries, groups, seen, kind, o.spot);
    }
  }

  /** A linked block whose reports carry a balance and disagree. */
  ghost predicate Contradictory(entries: map<Spot, Level>, seen: Seen, kind: Family, key: Spot) {
    Key(key) == key && BothLinked(seen, kind, key) && Balanced(entries, key) && !Agreed(entries, key)
  }

  lemma NothingFolded(entries: map<Spot, Level>, seen: Seen, kind: Family, groups: set<Spot>)
    ensures FoldedExcept(entries, entries, seen, kind, groups, groups)
  {
  }

  lemma EverythingFolded(entries: map<Spot, Level>, result: map<Spot, Level>, groups: map<Spot, set<Spot>>, seen: Seen, kind: Family)
    requires forall k :: k in groups <==> exists c :: c in entries && BothLinked(seen, kind, c) && Key(c) == k
    requires FoldedExcept(entries, result, seen, kind, groups.Keys, {})
    ensures Folds(entries, result, seen, kind)
  {
    hide BothLinked, Key, Kept;
    FoldedEverywhere(entries, groups, seen, kind);
  }

  lemma GroupedMeansLinked(entries: map<Spot, Level>, groups: map<Spot, set<Spot>>, seen: Seen, kind: Family, key: Spot)
    requires forall k :: k in groups <==> exists c :: c in entries && BothLinked(seen, kind, c) && Key(c) == k
    ensures Contradictory(entries, seen, kind, key) <==> (key in groups && Balanced(entries, key) && !Agreed(entries, key))
  {
    hide BothLinked, Key, Agreed;
    if key in groups {
      GroupKey(entries, seen, kind, key);
    }
    if Key(key) == key && BothLinked(seen, kind, key) && Balanced(entries, key) {
      var a :| a in Aliases(entries, key);
      LinkedByKey(seen, kind, key, a);
    }
  }

  /** Folded where the group has been dealt with, as reported elsewhere. */
  ghost predicate FoldedExcept(entries: map<Spot, Level>, result: map<Spot, Level>, seen: Seen, kind: Family,
                               groups: set<Spot>, rest: set<Spot>) {
    forall c :: Lookup(result, c) ==
      if Key(c) in groups && Key(c) !in rest then Kept(entries, seen, kind, c) else Lookup(entries, c)
  }

  function Lookup(m: map<Spot, Level>, c: Spot): Option<Level> {
    if c in m then Some(m[c]) else None
  }

  lemma AgreedWithOne(entries: map<Spot, Level>, key: Spot, cell: Spot)
    requires cell in Aliases(entries, key)
    ensures Agreed(entries, key) <==> !exists d :: d in Aliases(entries, key) && entries[d] != entries[cell]
  {
  }

  lemma BalancedGroupFolds(entries: map<Spot, Level>, before: map<Spot, Level>, after: map<Spot, Level>, seen: Seen, kind: Family,
                           groups: set<Spot>, rest: set<Spot>, key: Spot, cell: Spot)
    requires FoldedExcept(entries, before, seen, kind, groups, rest) && key in rest && key in groups && Key(key) == key
    requires cell in Aliases(entries, key) && Balanced(entries, key) && forall c :: Key(c) == key ==> BothLinked(seen, kind, c)
    requires after == if Agreed(entries, key) then (before - Aliases(entries, key))[key := entries[cell]]
                      else before - Aliases(entries, key)
    ensures FoldedExcept(entries, after, seen, kind, groups, rest - {key})
  {
    hide BothLinked, Key, Balanced;
    forall c
      ensures Lookup(after, c) ==
        if Key(c) in groups && Key(c) !in rest - {key} then Kept(entries, seen, kind, c) else Lookup(entries, c)
    {
      assert Lookup(before, c) == if Key(c) in groups && Key(c) !in rest then Kept(entries, seen, kind, c) else Lookup(entries, c);
      if Key(c) == key {
        assert c in entries ==> c in Aliases(entries, key);
        assert Lookup(after, c) == if c == key && Agreed(entries, key) then Some(entries[cell]) else None;
      }
    }
  }

  lemma UnbalancedGroupStays(entries: map<Spot, Level>, result: map<Spot, Level>, seen: Seen, kind: Family,
                             groups: set<Spot>, rest: set<Spot>, key: Spot)
    requires FoldedExcept(entries, result, seen, kind, groups, rest) && key in rest
    requires !Balanced(entries, key)
    ensures FoldedExcept(entries, result, seen, kind, groups, rest - {key})
  {
    hide BothLinked, Key, Balanced;
    forall c
      ensures Lookup(result, c) ==
        if Key(c) in groups && Key(c) !in rest - {key} then Kept(entries, seen, kind, c) else Lookup(entries, c)
    {
      assert Lookup(result, c) == if Key(c) in groups && Key(c) !in rest then Kept(entries, seen, kind, c) else Lookup(entries, c);
    }
  }

  /** A group's register is its own key, linked on both sides, and every position of the block shares it. */
  lemma GroupKey(entries: map<Spot, Level>, seen: Seen, kind: Family, key: Spot)
    requires exists c :: c in entries && BothLinked(seen, kind, c) && Key(c) == key
    ensures Key(key) == key && BothLinked(seen, kind, key) && Aliases(entries, key) != {}
    ensures forall c :: Key(c) == key ==> BothLinked(seen, kind, c)
  {
    hide BothLinked, Key;
    var c :| c in entries && BothLinked(seen, kind, c) && Key(c) == key;
    assert c in Aliases(entries, key);
    forall d | Key(d) == key ensures BothLinked(seen, kind, d) {
      LinkedByKey(seen, kind, c, d);
    }
    LinkedByKey(seen, kind, c, c);
  }

  lemma FoldedEverywhere(entries: map<Spot, Level>, groups: map<Spot, set<Spot>>, seen: Seen, kind: Family)
    requires forall k :: k in groups <==> exists c :: c in entries && BothLinked(seen, kind, c) && Key(c) == k
    ensures forall c :: Key(c) !in groups ==>
      Kept(entries, seen, kind, c) == Lookup(entries, c)
  {
    hide BothLinked, Key;
    forall c | Key(c) !in groups
      ensures Kept(entries, seen, kind, c) == Lookup(entries, c)
    {
      if BothLinked(seen, kind, c) && Balanced(entries, Key(c)) {
        var a :| a in Aliases(entries, Key(c));
        LinkedByKey(seen, kind, c, a);
      }
    }
  }

  // ---- cells to routes ----

  /** Python's round(x, 1): to the nearest tenth, a tie to the even one. */
  function RoundTenth(x: real): real {
    var f := (10.0 * x).Floor;
    var d := 10.0 * x - f as real;
    if d < 0.5 || (d == 0.5 && f % 2 == 0) then f as real / 10.0 else (f + 1) as real / 10.0
  }

  /** The result is within half a tenth, and at exactly half the tenth is the even one. */
  lemma RoundedToNearest(x: real) returns (tenths: int)
    ensures RoundTenth(x) == tenths as real / 10.0
    ensures Distance(10.0 * x, tenths as real) <= 0.5
    ensures Distance(10.0 * x, tenths as real) == 0.5 ==> tenths % 2 == 0
  {
    var f := (10.0 * x).Floor;
    tenths := if RoundTenth(x) == f as real / 10.0 then f else f + 1;
  }

  function Distance(a: real, b: real): real { if a < b then b - a else a - b }

  datatype Verdict = AsPair | AsSplit | AsMono | Leave(why: Problem)

  /** Everything one cell's reading depends on. */
  datatype Desk = Desk(entries: map<Spot, Level>, seen: Seen, device: Device, kind: Family, g: real)

  /** Whether two pairs of the device meet at this position. */
  predicate PairPosition(d: Desk, c: Spot) {
    c.0 % 2 == 1 && c.1 % 2 == 1 && c.0 + 1 in d.device.outputs && c.1 + 1 in d.device.Channels(d.kind)
  }

  /** The hard-panned partner an unlinked route writes beside its left register. */
  predicate HasRightHalf(d: Desk, c: Spot)
    requires c in d.entries
  {
    var right := (c.0 + 1, c.1);
    right in d.entries && d.entries[right].pan == 100 && Distance(d.entries[right].level, d.entries[c].level) < 0.0001
  }

  function Classify(d: Desk, c: Spot): Verdict
    requires c in d.entries
  {
    var Level(level, pan) := d.entries[c];
    var out, src := Linked(d.seen, Output, c.0), Linked(d.seen, d.kind, c.1);
    if pan != 0 && RoundTenth(level) <= LEVEL_MIN then Leave(BalanceRoundsToMute)
    else if out.None? || src.None? then Leave(LinkUnknown)
    else if PairPosition(d, c) && out.value && src.value && level <= LEVEL_MAX then AsPair
    else if PairPosition(d, c) && !out.value && src.value && pan == -100 && HasRightHalf(d, c)
      && LEVEL_MIN < RoundTenth(level - d.g) <= 0.0 then AsSplit
    else if pan == 0 && !out.value && !src.value && level <= LEVEL_MAX then AsMono
    else Leave(NotExpressible)
  }

  /** Two hard-panned registers of one level, on an unlinked pair of outputs over a linked pair of sources. */
  predicate SplitOver(d: Desk, c: Spot) {
    && c in d.entries && (c.0 + 1, c.1) in d.entries
    && d.entries[c].pan == -100 && d.entries[(c.0 + 1, c.1)].pan == 100
    && -0.0001 < d.entries[c].level - d.entries[(c.0 + 1, c.1)].level && d.entries[c].level - d.entries[(c.0 + 1, c.1)].level < 0.0001
  }

  /**
   * How a cell is read: by the links reported of its pairs, its place on them and its balance. A level
   * that would round to the floor with a balance is left out before anything else.
   */
  lemma ClassifiedExactly(d: Desk, c: Spot)
    requires c in d.entries
    ensures var cell, out, src := d.entries[c], Linked(d.seen, Output, c.0), Linked(d.seen, d.kind, c.1);
      var pairs := c.0 % 2 == 1 && c.1 % 2 == 1 && c.0 + 1 in d.device.outputs && c.1 + 1 in d.device.Channels(d.kind);
      var mute := cell.pan != 0 && RoundTenth(cell.level) <= -65.0;
      && (Classify(d, c) == Leave(BalanceRoundsToMute) <==> mute)
      && (Classify(d, c) == Leave(LinkUnknown) <==> !mute && (out == None || src == None))
      && (Classify(d, c) == AsPair <==> !mute && pairs && out == Some(true) && src == Some(true) && cell.level <= 6.0)
      && (Classify(d, c) == AsSplit <==>
            !mute && pairs && out == Some(false) && src == Some(true) && SplitOver(d, c)
            && -65.0 < RoundTenth(cell.level - d.g) && RoundTenth(cell.level - d.g) <= 0.0)
      && (Classify(d, c) == AsMono <==> cell.pan == 0 && out == Some(false) && src == Some(false) && cell.level <= 6.0)
      && (Classify(d, c) in {Leave(BadCell), Leave(ContradictoryAliases)} ==> false)
  {
    hide RoundTenth, Linked;
  }

  function RouteFor(d: Desk, c: Spot): Route
    requires c in d.entries && !Classify(d, c).Leave?
  {
    var Level(level, pan) := d.entries[c];
    match Classify(d, c)
    case AsPair => Route("", d.kind, [c.1, c.1 + 1], [c.0, c.0 + 1], RoundTenth(level), None, true, pan, [], false)
    case AsSplit => Route("", d.kind, [c.1, c.1 + 1], [c.0, c.0 + 1], RoundTenth(level - d.g), None, false, 0, [], false)
    case AsMono => Route("", d.kind, [c.1], [c.0], RoundTenth(level), None, true, 0, [], false)
  }

  /** The cells one reading uses up. */
  function Claims(d: Desk, c: Spot): set<Spot>
    requires c in d.entries
  {
    match Classify(d, c)
    case AsSplit => {c, (c.0 + 1, c.1)}
    case Leave(_) => {}
    case _ => {c}
  }

  /** A cell no earlier reading uses up. */
  predicate Head(d: Desk, c: Spot) {
    c in d.entries && !(c.0 % 2 == 0 && (c.0 - 1, c.1) in d.entries && Classify(d, (c.0 - 1, c.1)) == AsSplit)
  }

  predicate Lex(a: Spot, b: Spot) { a.0 < b.0 || (a.0 == b.0 && a.1 < b.1) }

  ghost predicate Increasing(spots: seq<Spot>) {
    forall i, j :: 0 <= i < j < |spots| ==> Lex(spots[i], spots[j])
  }

  lemma LexTotal(a: Spot, b: Spot)
    ensures Lex(a, b) || Lex(b, a) || a == b
    ensures !(Lex(a, b) && Lex(b, a))
  {
    assert (a.0, a.1) == a && (b.0, b.1) == b;
  }

  lemma {:induction false} FirstExists(rest: set<Spot>)
    requires rest != {}
    ensures exists c :: c in rest && forall x :: x in rest && x != c ==> Lex(c, x)
  {
    var a :| a in rest;
    if rest == {a} {
      assert forall x :: x in rest && x != a ==> Lex(a, x);
    } else {
      FirstExists(rest - {a});
      var b :| b in rest - {a} && forall x :: x in rest - {a} && x != b ==> Lex(b, x);
      LexTotal(a, b);
      var c := if Lex(a, b) then a else b;
      forall x | x in rest && x != c ensures Lex(c, x) {
        assert x == a || x in rest - {a};
      }
    }
  }

  /** A reading uses up its own cell, and a split one also the register to its right. */
  lemma ClaimsShape(d: Desk, c: Spot)
    requires c in d.entries
    ensures c in Claims(d, c) <==> !Classify(d, c).Leave?
    ensures Claims(d, c) == if Classify(d, c).Leave? then {} else if Classify(d, c) == AsSplit then {c, (c.0 + 1, c.1)} else {c}
    ensures Classify(d, c) == AsSplit ==> c.0 % 2 == 1 && (c.0 + 1, c.1) in d.entries
  {
  }

  /** The only other reading that can use up a cell is the split one on its left. */
  lemma ClaimedFromLeft(d: Desk, h: Spot, c: Spot)
    requires Head(d, h) && c in Claims(d, h)
    ensures c in d.entries && !Classify(d, h).Leave?
    ensures h == c || (h == (c.0 - 1, c.1) && c.0 % 2 == 0 && Classify(d, h) == AsSplit && Lex(h, c) && !Head(d, c))
  {
    hide Classify, Claims;
    ClaimsShape(d, h);
    assert (h.0, h.1) == h;
  }

  lemma NotHeadIsClaimed(d: Desk, c: Spot)
    requires c in d.entries && !Head(d, c)
    ensures Head(d, (c.0 - 1, c.1)) && c in Claims(d, (c.0 - 1, c.1)) && Lex((c.0 - 1, c.1), c)
  {
    hide Classify, Claims;
    var h := (c.0 - 1, c.1);
    ClaimsShape(d, h);
    assert (h.0 + 1, h.1) == c;
  }

  /** Everything read before `rest`, in order. */
  ghost predicate ReadBefore(d: Desk, rest: set<Spot>, heads: seq<Spot>, left: seq<Omission>, claimed: set<Spot>) {
    && rest <= d.entries.Keys
    && (forall p, x :: p in d.entries && p !in rest && x in rest ==> Lex(p, x))
    && (forall c :: c in heads <==> c !in rest && Head(d, c) && !Classify(d, c).Leave?)
    && Increasing(heads)
    && (forall o :: o in left <==> o.spot !in rest && Head(d, o.spot) && Classify(d, o.spot) == Leave(o.why))
    && (forall i, j :: 0 <= i < j < |left| ==> left[i].spot != left[j].spot)
    && (forall x :: x in claimed <==> exists h :: h in d.entries && h !in rest && Head(d, h) && x in Claims(d, h))
  }

  lemma ClaimedMeansNotHead(d: Desk, rest: set<Spot>, heads: seq<Spot>, left: seq<Omission>, claimed: set<Spot>, c: Spot)
    requires ReadBefore(d, rest, heads, left, claimed)
    requires c in rest && forall x :: x in rest && x != c ==> Lex(c, x)
    ensures c in claimed <==> !Head(d, c)
  {
    hide Classify, Claims, Head;
    HeadIsEntry(d);
    if c in claimed {
      var h :| h in d.entries && h !in rest && Head(d, h) && c in Claims(d, h);
      ClaimedFromLeft(d, h, c);
    }
    if !Head(d, c) {
      NotHeadIsClaimed(d, c);
      LexTotal((c.0 - 1, c.1), c);
    }
  }

  /** Reading the next cell in order keeps the account. */
  lemma ReadNext(d: Desk, rest: set<Spot>, heads: seq<Spot>, left: seq<Omission>, claimed: set<Spot>, c: Spot)
    requires ReadBefore(d, rest, heads, left, claimed)
    requires c in rest && forall x :: x in rest && x != c ==> Lex(c, x)
    ensures ReadBefore(d, rest - {c},
      if Head(d, c) && !Classify(d, c).Leave? then heads + [c] else heads,
      if Head(d, c) && Classify(d, c).Leave? then left + [Omission(c, Classify(d, c).why)] else left,
      if Head(d, c) then claimed + Claims(d, c) else claimed)
  {
    hide Classify, Claims, Head;
    assert forall i :: 0 <= i < |heads| ==> heads[i] in heads && heads[i] !in rest;
    assert forall i :: 0 <= i < |left| ==> left[i] in left && left[i].spot !in rest;
    HeadIsEntry(d);
  }

  lemma HeadIsEntry(d: Desk)
    ensures forall c :: Head(d, c) ==> c in d.entries
  {
  }

  /** Cells to routes, in cell order. */
  method ReadRoutes(d: Desk) returns (routes: seq<Route>, left: seq<Omission>, heads: seq<Spot>)
    ensures |routes| == |heads| && Increasing(heads)
    ensures forall c :: c in heads <==> Head(d, c) && !Classify(d, c).Leave?
    ensures forall i :: 0 <= i < |heads| ==>
      heads[i] in d.entries && !Classify(d, heads[i]).Leave? && routes[i] == RouteFor(d, heads[i])
    ensures forall o :: o in left <==> Head(d, o.spot) && Classify(d, o.spot) == Leave(o.why)
    ensures forall i, j :: 0 <= i < j < |left| ==> left[i].spot != left[j].spot
  {
    hide Classify, RouteFor, ReadBefore, Claims, Head;
    routes, heads, left := [], [], [];
    var claimed: set<Spot> := {};
    var rest := d.entries.Keys;
    NothingRead(d);
    while rest != {}
      invariant ReadBefore(d, rest, heads, left, claimed)
      invariant |routes| == |heads|
      invariant forall i :: 0 <= i < |heads| ==>
        heads[i] in d.entries && !Classify(d, heads[i]).Leave? && routes[i] == RouteFor(d, heads[i])
      decreases |rest|
    {
      FirstExists(rest);
      var c :| c in rest && forall x :: x in rest && x != c ==> Lex(c, x);
      RestIsEntries(d, rest, heads, left, claimed);
      ClaimedMeansNotHead(d, rest, heads, left, claimed, c);
      ReadNext(d, rest, heads, left, claimed, c);
      if c !in claimed {
        var verdict := Classify(d, c);
        if verdict.Leave? {
          left := left + [Omission(c, verdict.why)];
        } else {
          routes := routes + [RouteFor(d, c)];
          heads := heads + [c];
        }
        claimed := claimed + Claims(d, c);
      }
      rest := rest - {c};
    }
    EverythingRead(d, heads, left, claimed);
  }

  lemma NothingRead(d: Desk)
    ensures ReadBefore(d, d.entries.Keys, [], [], {})
  {
    hide Classify, Claims;
  }

  lemma EverythingRead(d: Desk, heads: seq<Spot>, left: seq<Omission>, claimed: set<Spot>)
    requires ReadBefore(d, {}, heads, left, claimed)
    ensures Increasing(heads)
    ensures forall c :: c in heads <==> Head(d, c) && !Classify(d, c).Leave?
    ensures forall o :: o in left <==> Head(d, o.spot) && Classify(d, o.spot) == Leave(o.why)
    ensures forall i, j :: 0 <= i < j < |left| ==> left[i].spot != left[j].spot
  {
    hide Classify, Claims, Head;
  }

  /** What reading a matrix returns: `heads` are the cells the routes come from, `early` the omissions before any route. */
  ghost predicate Reading(d: Desk, routes: seq<Route>, heads: seq<Spot>, early: seq<Omission>, left: seq<Omission>) {
    var audible := Audible(d.seen, d.device, d.kind, d.g);
    && Folds(audible, d.entries, d.seen, d.kind)
    && |routes| == |heads| && Increasing(heads)
    && (forall c :: c in heads <==> Head(d, c) && !Classify(d, c).Leave?)
    && (forall i :: 0 <= i < |heads| ==>
        heads[i] in d.entries && !Classify(d, heads[i]).Leave? && routes[i] == RouteFor(d, heads[i]))
    && (forall o :: o in early <==>
        ((o.why == BadCell && o.spot in d.seen.mix && MixCell(o.spot, d.seen.mix[o.spot], d.device, d.kind, d.g).Err?)
         || (o.why == ContradictoryAliases && Contradictory(audible, d.seen, d.kind, o.spot))))
    && (forall o :: o in left <==> Head(d, o.spot) && Classify(d, o.spot) == Leave(o.why))
    && (forall i, j :: 0 <= i < j < |left| ==> left[i].spot != left[j].spot)
  }

  /** What a route that was read requires of a pair, the device reported of it. */
  lemma ReadLinksAreReported(d: Desk, routes: seq<Route>, heads: seq<Spot>, early: seq<Omission>, left: seq<Omission>, i: nat, l: Link)
    requires Reading(d, routes, heads, early, left) && i < |routes| && WellFormed(routes[i]) && l in LinkRequirements(routes[i])
    ensures l.family in {Output, d.kind} && PairSays(d.seen, l.family, l.channel, l.linked)
  {
    hide Linked, PairSays, Reading, Head, Folds;
    ReadAt(d, routes, heads, early, left, i);
    var c := heads[i];
    LinkedAsReported(d.seen, Output, c.0, true);
    LinkedAsReported(d.seen, Output, c.0, false);
    LinkedAsReported(d.seen, d.kind, c.1, true);
    LinkedAsReported(d.seen, d.kind, c.1, false);
  }

  lemma ReadAt(d: Desk, routes: seq<Route>, heads: seq<Spot>, early: seq<Omission>, left: seq<Omission>, i: nat)
    requires Reading(d, routes, heads, early, left) && i < |routes|
    ensures |heads| == |routes| && heads[i] in d.entries && !Classify(d, heads[i]).Leave? && routes[i] == RouteFor(d, heads[i])
  {
  }

  /** A cell over an unreported link is in no route. */
  lemma UnreportedLinkIsNotRead(d: Desk, c: Spot)
    requires c in d.entries
    requires (forall b :: !PairSays(d.seen, Output, Odd(c.0), b)) || (forall b :: !PairSays(d.seen, d.kind, Odd(c.1), b))
    ensures Classify(d, c) in {Leave(LinkUnknown), Leave(BalanceRoundsToMute)}
  {
    hide Linked, PairSays;
    LinkedAsReported(d.seen, Output, c.0, true);
    LinkedAsReported(d.seen, Output, c.0, false);
    LinkedAsReported(d.seen, d.kind, c.1, true);
    LinkedAsReported(d.seen, d.kind, c.1, false);
  }

  /** The routes the reported state implies, in cell order, and what it could not express. */
  method RoutesFromObserved(seen: Seen, device: Device, kind: Family, g: real)
      returns (routes: seq<Route>, omitted: seq<Omission>, d: Desk, heads: seq<Spot>, early: seq<Omission>, left: seq<Omission>)
    ensures d.seen == seen && d.device == device && d.kind == kind && d.g == g
    ensures Reading(d, routes, heads, early, left)
    ensures omitted == early + left
  {
    hide MixCell, Folds, Contradictory, Classify, Head;
    var entries, bad := MixEntries(seen, device, kind, g);
    var folded, contradictory := CanonicalizeBalancedCells(entries, seen, kind);
    d := Desk(folded, seen, device, kind, g);
    early := bad + contradictory;
    routes, left, heads := ReadRoutes(d);
    omitted := early + left;
  }

  lemma RestIsEntries(d: Desk, rest: set<Spot>, heads: seq<Spot>, left: seq<Omission>, claimed: set<Spot>)
    requires ReadBefore(d, rest, heads, left, claimed)
    ensures rest <= d.entries.Keys
  {
  }

  /** Every audible cell is in exactly one route or named by exactly one omission. */
  lemma EachCellOnce(d: Desk, c: Spot)
    requires c in d.entries
    ensures (Head(d, c) && Classify(d, c).Leave?) <==> !exists h :: Head(d, h) && c in Claims(d, h)
    ensures forall h, k :: Head(d, h) && Head(d, k) && c in Claims(d, h) && c in Claims(d, k) ==> h == k
    ensures forall h :: Head(d, h) && c in Claims(d, h) ==> !Classify(d, h).Leave?
  {
    hide Classify, Claims, Head;
    HeadIsEntry(d);
    ClaimsShape(d, c);
    forall h | Head(d, h) && c in Claims(d, h)
      ensures !Classify(d, h).Leave? && (Head(d, c) ==> h == c) && (!Head(d, c) ==> h == (c.0 - 1, c.1))
    {
      ClaimedFromLeft(d, h, c);
    }
    if !Head(d, c) {
      NotHeadIsClaimed(d, c);
    }
  }
}
