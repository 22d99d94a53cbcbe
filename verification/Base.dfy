/** `[desk] base`: the silent cells beneath the declared routes, and what they make of the whole matrix. */
module Base {
  import opened Wrappers
  import opened MixModel

  datatype Kind = Keep | ClearInputs | ClearSubmixes | StraightPlayback | Daw

  /** The channels each family has, in the device's order. */
  datatype Device = Device(outputs: seq<int>, inputs: seq<int>, playbacks: seq<int>) {
    function Channels(family: Family): seq<int> {
      match family
      case Output => outputs
      case Input => inputs
      case Playback => playbacks
    }
  }

  /** A cell the base mutes. `compared`: a later read-back can count on hearing of it. */
  datatype BaseEntry = BaseEntry(cell: Cell, compared: bool)

  function Silences(base: Kind): seq<Family> {
    match base
    case Keep => []
    case ClearInputs => [Input]
    case ClearSubmixes => [Input, Playback]
    case StraightPlayback => [Playback]
    case Daw => [Input, Playback]
  }

  /** Which matrices fall silent: the inputs, the playbacks, or both; never a matrix of outputs. */
  predicate Clears(base: Kind, family: Family) {
    match family
    case Input => base == ClearInputs || base == ClearSubmixes || base == Daw
    case Playback => base == StraightPlayback || base == ClearSubmixes || base == Daw
    case Output => false
  }

  lemma SilencesWhatItClears(base: Kind, family: Family)
    ensures family in Silences(base) <==> Clears(base, family)
    ensures KindsDiffer(Silences(base)) && (Silences(base) != [] && Clears(base, Input) ==> Silences(base)[0] == Input)
  {
  }

  function With(links: Links, l: Link): Links { links[(l.family, l.channel) := l.linked] }

  /** Later requirements replace earlier ones; consistent routes never disagree. */
  function LinksOf(routes: seq<Route>, n: nat): Links
    requires n <= |routes| && forall r :: r in routes ==> WellFormed(r)
  {
    if n == 0 then map[]
    else
      var q := LinkRequirements(routes[n - 1]);
      With(With(LinksOf(routes, n - 1), q[0]), q[1])
  }

  /** The declared flags are exactly what some route requires. */
  lemma {:induction false} LinksOfMeaning(routes: seq<Route>, n: nat, family: Family, channel: int)
    requires AllWellFormed(routes) && n <= |routes|
    ensures (family, channel) in LinksOf(routes, n) <==>
      exists b: bool :: Requires(routes[..n], Link(family, channel, b))
    ensures (family, channel) in LinksOf(routes, n) ==>
      Requires(routes[..n], Link(family, channel, LinksOf(routes, n)[(family, channel)]))
  {
    hide LinkRequirements;
    if n != 0 {
      LinksOfMeaning(routes, n - 1, family, channel);
      LinksStep(routes, n, family, channel);
      var q := LinkRequirements(routes[n - 1]);
      assert q == [q[0], q[1]];
      assert q[0] == Link(q[0].family, q[0].channel, q[0].linked) && q[1] == Link(q[1].family, q[1].channel, q[1].linked);
    }
  }

  lemma LinksStep(routes: seq<Route>, n: nat, family: Family, channel: int)
    requires AllWellFormed(routes) && 0 < n <= |routes|
    ensures forall b: bool :: Requires(routes[..n], Link(family, channel, b)) <==>
      (Requires(routes[..n - 1], Link(family, channel, b)) || Link(family, channel, b) in LinkRequirements(routes[n - 1]))
  {
    assert routes[..n] == routes[..n - 1] + [routes[n - 1]];
    forall b: bool
      ensures Requires(routes[..n], Link(family, channel, b)) <==>
        (Requires(routes[..n - 1], Link(family, channel, b)) || Link(family, channel, b) in LinkRequirements(routes[n - 1]))
    {
      var l := Link(family, channel, b);
      if Requires(routes[..n], l) {
        var r :| r in routes[..n] && l in LinkRequirements(r);
        assert r in routes[..n - 1] || r == routes[n - 1];
      }
    }
  }

  /** Some route requires a state of this pair's link. */
  ghost predicate RequiresAny(routes: seq<Route>, family: Family, channel: int)
    requires AllWellFormed(routes)
  {
    Requires(routes, Link(family, channel, true)) || Requires(routes, Link(family, channel, false))
  }

  /** The table of declared links: a pair is in it exactly when a route requires a state of it, with a state some route requires. */
  method DeclaredLinks(routes: seq<Route>) returns (declared: Links)
    requires AllWellFormed(routes)
    ensures declared == LinksOf(routes, |routes|)
    ensures forall family: Family, channel: int :: (family, channel) in declared <==> RequiresAny(routes, family, channel)
    ensures forall pair :: pair in declared ==> Requires(routes, Link(pair.0, pair.1, declared[pair]))
  {
    declared := map[];
    for i := 0 to |routes|
      invariant declared == LinksOf(routes, i)
    {
      var q := LinkRequirements(routes[i]);
      for j := 0 to |q|
        invariant declared == if j == 0 then LinksOf(routes, i)
                              else if j == 1 then With(LinksOf(routes, i), q[0])
                              else LinksOf(routes, i + 1)
      {
        declared := With(declared, q[j]);
      }
    }
    assert routes[..|routes|] == routes;
    forall family: Family, channel: int
      ensures (family, channel) in declared <==> RequiresAny(routes, family, channel)
      ensures (family, channel) in declared ==> Requires(routes, Link(family, channel, declared[(family, channel)]))
    {
      LinksOfMeaning(routes, |routes|, family, channel);
    }
    forall pair | pair in declared ensures Requires(routes, Link(pair.0, pair.1, declared[pair])) {
      assert (pair.0, pair.1) == pair;
    }
  }

  /** The odd channels whose partner exists too. */
  function OddPairs(channels: seq<int>): (odds: seq<int>)
    ensures forall c :: c in odds <==> c in channels && c % 2 == 1 && c + 1 in channels
  {
    assert channels[..|channels|] == channels;
    OddPairsUpTo(channels, |channels|)
  }

  function OddPairsUpTo(channels: seq<int>, n: nat): (odds: seq<int>)
    requires n <= |channels|
    ensures forall c :: c in odds <==> c in channels[..n] && c % 2 == 1 && c + 1 in channels
  {
    if n == 0 then []
    else
      var c := channels[n - 1];
      assert channels[..n] == channels[..n - 1] + [c];
      OddPairsUpTo(channels, n - 1) + (if c % 2 == 1 && c + 1 in channels then [c] else [])
  }

  /** The registers of one side of a block: one for a declared link, else one per channel. */
  function Sides(links: Links, family: Family, left: int): seq<int> {
    if (family, left) in links && links[(family, left)] then [left] else [left, left + 1]
  }

  function Compared(links: Links, out: int, target: int, kind: Family, source: int, channel: int): bool {
    && (target == out || (Output, out) in links)
    && (channel == source || (kind, source) in links)
  }

  // ---- the entries loop by loop ----

  function OneCell(links: Links, declared: set<Cell>, out: int, target: int, kind: Family, source: int, channel: int): seq<BaseEntry> {
    var cell := Cell(target, kind, channel);
    if cell in declared then [] else [BaseEntry(cell, Compared(links, out, target, kind, source, channel))]
  }

  function Row(links: Links, declared: set<Cell>, out: int, target: int, kind: Family, source: int, channels: seq<int>, n: nat): seq<BaseEntry>
    requires n <= |channels|
  {
    if n == 0 then []
    else
      Row(links, declared, out, target, kind, source, channels, n - 1)
      + OneCell(links, declared, out, target, kind, source, channels[n - 1])
  }

  function Block(links: Links, declared: set<Cell>, out: int, targets: seq<int>, kind: Family, source: int, n: nat): seq<BaseEntry>
    requires n <= |targets|
  {
    if n == 0 then []
    else
      Block(links, declared, out, targets, kind, source, n - 1)
      + Row(links, declared, out, targets[n - 1], kind, source, Sides(links, kind, source), |Sides(links, kind, source)|)
  }

  function BlocksOf(links: Links, declared: set<Cell>, out: int, kind: Family, sources: seq<int>, n: nat): seq<BaseEntry>
    requires n <= |sources|
  {
    if n == 0 then []
    else
      BlocksOf(links, declared, out, kind, sources, n - 1)
      + Block(links, declared, out, Sides(links, Output, out), kind, sources[n - 1], |Sides(links, Output, out)|)
  }

  function KindsOf(links: Links, declared: set<Cell>, device: Device, out: int, kinds: seq<Family>, n: nat): seq<BaseEntry>
    requires n <= |kinds|
  {
    if n == 0 then []
    else
      var lefts := OddPairs(device.Channels(kinds[n - 1]));
      KindsOf(links, declared, device, out, kinds, n - 1) + BlocksOf(links, declared, out, kinds[n - 1], lefts, |lefts|)
  }

  function EntriesOf(links: Links, declared: set<Cell>, device: Device, kinds: seq<Family>, outs: seq<int>, n: nat): seq<BaseEntry>
    requires n <= |outs|
  {
    if n == 0 then []
    else
      EntriesOf(links, declared, device, kinds, outs, n - 1)
      + KindsOf(links, declared, device, outs[n - 1], kinds, |kinds|)
  }

  function SilentEntries(base: Kind, links: Links, declared: set<Cell>, device: Device): seq<BaseEntry> {
    var outs := OddPairs(device.outputs);
    EntriesOf(links, declared, device, Silences(base), outs, |outs|)
  }

  /** The registers of one block that no route writes. */
  method BlockEntries(links: Links, declared: set<Cell>, out: int, outs: seq<int>, kind: Family, source: int)
      returns (entries: seq<BaseEntry>)
    ensures entries == Block(links, declared, out, outs, kind, source, |outs|)
  {
    entries := [];
    var sources := Sides(links, kind, source);
    for t := 0 to |outs|
      invariant entries == Block(links, declared, out, outs, kind, source, t)
    {
      var target := outs[t];
      ghost var atRow := entries;
      for c := 0 to |sources|
        invariant entries == atRow + Row(links, declared, out, target, kind, source, sources, c)
      {
        var channel := sources[c];
        var cell := Cell(target, kind, channel);
        if cell !in declared {
          entries := entries + [BaseEntry(cell, Compared(links, out, target, kind, source, channel))];
        }
      }
    }
  }

  /** The silent cells of one output pair. */
  method OutputEntries(links: Links, declared: set<Cell>, device: Device, out: int, kinds: seq<Family>)
      returns (entries: seq<BaseEntry>)
    ensures entries == KindsOf(links, declared, device, out, kinds, |kinds|)
  {
    hide Block, OddPairs, Sides;
    entries := [];
    var outs := Sides(links, Output, out);
    for j := 0 to |kinds|
      invariant entries == KindsOf(links, declared, device, out, kinds, j)
    {
      var kind := kinds[j];
      var lefts := OddPairs(device.Channels(kind));
      ghost var atKind := entries;
      for k := 0 to |lefts|
        invariant entries == atKind + BlocksOf(links, declared, out, kind, lefts, k)
      {
        var block := BlockEntries(links, declared, out, outs, kind, lefts[k]);
        entries := entries + block;
      }
    }
  }

  /** The silent cells of a base where no route writes, in block order. */
  method BaseEntries(base: Kind, routes: seq<Route>, declared: set<Cell>, device: Device) returns (entries: seq<BaseEntry>)
    requires AllWellFormed(routes)
    ensures entries == SilentEntries(base, LinksOf(routes, |routes|), declared, device)
    ensures forall c :: Lists(entries, c) <==> Silenced(base, LinksOf(routes, |routes|), declared, device, c)
  {
    hide LinksOf, KindsOf, Lists, Silenced;
    var links := DeclaredLinks(routes);
    entries := [];
    var pairs := OddPairs(device.outputs);
    for i := 0 to |pairs|
      invariant entries == EntriesOf(links, declared, device, Silences(base), pairs, i)
    {
      var row := OutputEntries(links, declared, device, pairs[i], Silences(base));
      entries := entries + row;
    }
    forall c ensures Lists(entries, c) <==> Silenced(base, links, declared, device, c) {
      EntriesAreTheSilencedCells(base, links, declared, device, c);
    }
  }

  // ---- what the entries are ----

  /**
   * The registers a base silences: in a silenced matrix, between two complete pairs,
   * addressed by the odd channel where a pair is declared linked, and set by no route.
   */
  ghost predicate Silenced(base: Kind, links: Links, declared: set<Cell>, device: Device, c: Cell) {
    && Clears(base, c.kind)
    && Odd(c.out) in OddPairs(device.outputs) && c.out in Sides(links, Output, Odd(c.out))
    && Odd(c.src) in OddPairs(device.Channels(c.kind)) && c.src in Sides(links, c.kind, Odd(c.src))
    && c !in declared
  }

  ghost predicate Lists(entries: seq<BaseEntry>, c: Cell) {
    exists e :: e in entries && e.cell == c
  }

  lemma {:induction false} RowLists(links: Links, declared: set<Cell>, out: int, target: int, kind: Family, source: int,
                                    channels: seq<int>, n: nat, c: Cell)
    requires n <= |channels|
    ensures Lists(Row(links, declared, out, target, kind, source, channels, n), c) <==>
      (c.kind == kind && c.out == target && c.src in channels[..n] && c !in declared)
  {
    hide OneCell;
    if n != 0 {
      RowLists(links, declared, out, target, kind, source, channels, n - 1, c);
      ListsConcat(Row(links, declared, out, target, kind, source, channels, n - 1),
                  OneCell(links, declared, out, target, kind, source, channels[n - 1]), c);
      OneCellLists(links, declared, out, target, kind, source, channels[n - 1], c);
      assert channels[..n] == channels[..n - 1] + [channels[n - 1]];
    }
  }

  lemma OneCellLists(links: Links, declared: set<Cell>, out: int, target: int, kind: Family, source: int, channel: int, c: Cell)
    ensures Lists(OneCell(links, declared, out, target, kind, source, channel), c)
        <==> c == Cell(target, kind, channel) && c !in declared
  {
    var e := BaseEntry(c, Compared(links, out, target, kind, source, channel));
    if c == Cell(target, kind, channel) && c !in declared {
      assert e in OneCell(links, declared, out, target, kind, source, channel);
    }
  }

  lemma ListsConcat(a: seq<BaseEntry>, b: seq<BaseEntry>, c: Cell)
    ensures Lists(a + b, c) <==> Lists(a, c) || Lists(b, c)
  {
    if Lists(a, c) {
      var e :| e in a && e.cell == c;
      assert e in a + b;
    }
    if Lists(b, c) {
      var e :| e in b && e.cell == c;
      assert e in a + b;
    }
  }

  lemma {:induction false} BlockLists(links: Links, declared: set<Cell>, out: int, targets: seq<int>, kind: Family, source: int,
                                      n: nat, c: Cell)
    requires n <= |targets|
    ensures Lists(Block(links, declared, out, targets, kind, source, n), c) <==>
      (c.kind == kind && c.out in targets[..n] && c.src in Sides(links, kind, source) && c !in declared)
  {
    hide Row, Sides;
    if n != 0 {
      var sides := Sides(links, kind, source);
      BlockLists(links, declared, out, targets, kind, source, n - 1, c);
      RowLists(links, declared, out, targets[n - 1], kind, source, sides, |sides|, c);
      assert sides[..|sides|] == sides;
      ListsConcat(Block(links, declared, out, targets, kind, source, n - 1),
                  Row(links, declared, out, targets[n - 1], kind, source, sides, |sides|), c);
      assert targets[..n] == targets[..n - 1] + [targets[n - 1]];
    }
  }

  lemma SidesKeepPair(links: Links, family: Family, left: int, channel: int)
    requires left % 2 == 1 && channel in Sides(links, family, left)
    ensures Odd(channel) == left
  {
  }

  lemma {:induction false} BlocksOfLists(links: Links, declared: set<Cell>, out: int, kind: Family, sources: seq<int>, n: nat, c: Cell)
    requires n <= |sources| && forall s :: s in sources ==> s % 2 == 1
    ensures Lists(BlocksOf(links, declared, out, kind, sources, n), c) <==>
      (c.kind == kind && c.out in Sides(links, Output, out) && Odd(c.src) in sources[..n]
       && c.src in Sides(links, kind, Odd(c.src)) && c !in declared)
  {
    hide Block, Sides;
    if n != 0 {
      var outs, left := Sides(links, Output, out), sources[n - 1];
      BlocksOfLists(links, declared, out, kind, sources, n - 1, c);
      BlockLists(links, declared, out, outs, kind, left, |outs|, c);
      assert outs[..|outs|] == outs;
      ListsConcat(BlocksOf(links, declared, out, kind, sources, n - 1),
                  Block(links, declared, out, outs, kind, left, |outs|), c);
      assert sources[..n] == sources[..n - 1] + [left];
      assert left in sources;
      if c.src in Sides(links, kind, left) {
        SidesKeepPair(links, kind, left, c.src);
      }
    }
  }

  lemma OddPairsAreOdd(device: Device)
    ensures forall f: Family :: forall s :: s in OddPairs(device.Channels(f)) ==> s % 2 == 1
  {
  }

  lemma {:induction false} KindsOfLists(links: Links, declared: set<Cell>, device: Device, out: int, kinds: seq<Family>, n: nat, c: Cell)
    requires n <= |kinds|
    ensures Lists(KindsOf(links, declared, device, out, kinds, n), c) <==>
      (c.kind in kinds[..n] && c.out in Sides(links, Output, out) && Odd(c.src) in OddPairs(device.Channels(c.kind))
       && c.src in Sides(links, c.kind, Odd(c.src)) && c !in declared)
  {
    hide BlocksOf, Sides, OddPairs;
    OddPairsAreOdd(device);
    if n != 0 {
      var kind := kinds[n - 1];
      var lefts := OddPairs(device.Channels(kind));
      KindsOfLists(links, declared, device, out, kinds, n - 1, c);
      BlocksOfLists(links, declared, out, kind, lefts, |lefts|, c);
      assert lefts[..|lefts|] == lefts;
      ListsConcat(KindsOf(links, declared, device, out, kinds, n - 1), BlocksOf(links, declared, out, kind, lefts, |lefts|), c);
      assert kinds[..n] == kinds[..n - 1] + [kind];
    }
  }

  lemma {:induction false} EntriesOfLists(links: Links, declared: set<Cell>, device: Device, kinds: seq<Family>, outs: seq<int>,
                                          n: nat, c: Cell)
    requires n <= |outs| && forall o :: o in outs ==> o % 2 == 1
    ensures Lists(EntriesOf(links, declared, device, kinds, outs, n), c) <==>
      (c.kind in kinds && Odd(c.out) in outs[..n] && c.out in Sides(links, Output, Odd(c.out))
       && Odd(c.src) in OddPairs(device.Channels(c.kind)) && c.src in Sides(links, c.kind, Odd(c.src)) && c !in declared)
  {
    hide KindsOf, Sides, OddPairs;
    if n != 0 {
      var out := outs[n - 1];
      EntriesOfLists(links, declared, device, kinds, outs, n - 1, c);
      KindsOfLists(links, declared, device, out, kinds, |kinds|, c);
      assert kinds[..|kinds|] == kinds;
      ListsConcat(EntriesOf(links, declared, device, kinds, outs, n - 1), KindsOf(links, declared, device, out, kinds, |kinds|), c);
      assert outs[..n] == outs[..n - 1] + [out];
      assert out in outs;
      if c.out in Sides(links, Output, out) {
        SidesKeepPair(links, Output, out, c.out);
      }
    }
  }

  /** Exactly the registers of the silenced matrices that no route sets. */
  lemma EntriesAreTheSilencedCells(base: Kind, links: Links, declared: set<Cell>, device: Device, c: Cell)
    ensures Lists(SilentEntries(base, links, declared, device), c) <==> Silenced(base, links, declared, device, c)
  {
    var outs := OddPairs(device.outputs);
    SilencesWhatItClears(base, c.kind);
    EntriesOfLists(links, declared, device, Silences(base), outs, |outs|, c);
    assert outs[..|outs|] == outs;
  }

  // ---- no register twice ----

  ghost predicate NoneTwice(entries: seq<BaseEntry>) {
    forall i, j :: 0 <= i < j < |entries| ==> entries[i].cell != entries[j].cell
  }

  ghost predicate Differ(channels: seq<int>) {
    forall i, j :: 0 <= i < j < |channels| ==> channels[i] != channels[j]
  }

  lemma NothingTwice()
    ensures NoneTwice([])
  {
  }

  lemma NoneTwiceConcat(a: seq<BaseEntry>, b: seq<BaseEntry>)
    requires NoneTwice(a) && NoneTwice(b) && forall c :: Lists(a, c) ==> !Lists(b, c)
    ensures NoneTwice(a + b)
  {
    forall i, j | 0 <= i < j < |a + b| ensures (a + b)[i].cell != (a + b)[j].cell {
      if i < |a| <= j {
        assert a[i] in a && b[j - |a|] in b;
        assert Lists(a, a[i].cell) && Lists(b, b[j - |a|].cell);
      }
    }
  }

  lemma FreshChannel(channels: seq<int>, n: nat)
    requires Differ(channels) && 0 < n <= |channels|
    ensures channels[n - 1] !in channels[..n - 1]
  {
  }

  lemma {:induction false} RowNoneTwice(links: Links, declared: set<Cell>, out: int, target: int, kind: Family, source: int, channels: seq<int>, n: nat)
    requires n <= |channels| && Differ(channels)
    ensures NoneTwice(Row(links, declared, out, target, kind, source, channels, n))
  {
    if n != 0 {
      RowNoneTwice(links, declared, out, target, kind, source, channels, n - 1);
      FreshChannel(channels, n);
      var row, one := Row(links, declared, out, target, kind, source, channels, n - 1), OneCell(links, declared, out, target, kind, source, channels[n - 1]);
      forall c | Lists(row, c) ensures !Lists(one, c) {
        RowLists(links, declared, out, target, kind, source, channels, n - 1, c);
      }
      NoneTwiceConcat(row, one);
    }
  }

  lemma SidesDiffer(links: Links, family: Family, left: int)
    ensures Differ(Sides(links, family, left))
  {
  }

  lemma {:induction false} BlockNoneTwice(links: Links, declared: set<Cell>, out: int, targets: seq<int>, kind: Family, source: int, n: nat)
    requires n <= |targets| && Differ(targets)
    ensures NoneTwice(Block(links, declared, out, targets, kind, source, n))
  {
    hide Row, Sides, Differ, NoneTwice, Lists;
    NothingTwice();
    if n != 0 {
      var sides := Sides(links, kind, source);
      BlockNoneTwice(links, declared, out, targets, kind, source, n - 1);
      SidesDiffer(links, kind, source);
      RowNoneTwice(links, declared, out, targets[n - 1], kind, source, sides, |sides|);
      FreshChannel(targets, n);
      var block, row := Block(links, declared, out, targets, kind, source, n - 1), Row(links, declared, out, targets[n - 1], kind, source, sides, |sides|);
      forall c | Lists(block, c) ensures !Lists(row, c) {
        BlockLists(links, declared, out, targets, kind, source, n - 1, c);
        RowLists(links, declared, out, targets[n - 1], kind, source, sides, |sides|, c);
      }
      NoneTwiceConcat(block, row);
    }
  }

  lemma {:induction false} BlocksNoneTwice(links: Links, declared: set<Cell>, out: int, kind: Family, sources: seq<int>, n: nat)
    requires n <= |sources| && Differ(sources) && forall s :: s in sources ==> s % 2 == 1
    ensures NoneTwice(BlocksOf(links, declared, out, kind, sources, n))
  {
    hide Block, Sides, Differ, NoneTwice, Lists;
    NothingTwice();
    if n != 0 {
      var outs, left := Sides(links, Output, out), sources[n - 1];
      BlocksNoneTwice(links, declared, out, kind, sources, n - 1);
      SidesDiffer(links, Output, out);
      BlockNoneTwice(links, declared, out, outs, kind, left, |outs|);
      FreshChannel(sources, n);
      assert left in sources;
      var blocks, block := BlocksOf(links, declared, out, kind, sources, n - 1), Block(links, declared, out, outs, kind, left, |outs|);
      forall c | Lists(blocks, c) ensures !Lists(block, c) {
        BlocksOfLists(links, declared, out, kind, sources, n - 1, c);
        BlockLists(links, declared, out, outs, kind, left, |outs|, c);
        if c.src in Sides(links, kind, left) {
          SidesKeepPair(links, kind, left, c.src);
        }
      }
      NoneTwiceConcat(blocks, block);
    }
  }

  lemma {:induction false} PairsDiffer(channels: seq<int>, n: nat)
    requires n <= |channels| && Differ(channels)
    ensures Differ(OddPairsUpTo(channels, n))
  {
    if n != 0 {
      PairsDiffer(channels, n - 1);
      FreshChannel(channels, n);
      assert channels[n - 1] !in OddPairsUpTo(channels, n - 1);
    }
  }

  ghost predicate KindsDiffer(kinds: seq<Family>) {
    forall i, j :: 0 <= i < j < |kinds| ==> kinds[i] != kinds[j]
  }

  lemma FreshKind(kinds: seq<Family>, n: nat)
    requires KindsDiffer(kinds) && 0 < n <= |kinds|
    ensures kinds[n - 1] !in kinds[..n - 1] && kinds[n - 1] in kinds
  {
  }

  /** The blocks of one kind, on pairs that differ. */
  lemma KindNoneTwice(links: Links, declared: set<Cell>, device: Device, out: int, kind: Family)
    requires Differ(device.Channels(kind))
    ensures var lefts := OddPairs(device.Channels(kind));
      NoneTwice(BlocksOf(links, declared, out, kind, lefts, |lefts|)) && forall s :: s in lefts ==> s % 2 == 1
  {
    hide BlocksOf, NoneTwice, Differ;
    var channels := device.Channels(kind);
    PairsDiffer(channels, |channels|);
    BlocksNoneTwice(links, declared, out, kind, OddPairs(channels), |OddPairs(channels)|);
  }

  lemma {:induction false} KindsNoneTwice(links: Links, declared: set<Cell>, device: Device, out: int, kinds: seq<Family>, n: nat)
    requires n <= |kinds| && KindsDiffer(kinds) && forall kind :: kind in kinds ==> Differ(device.Channels(kind))
    ensures NoneTwice(KindsOf(links, declared, device, out, kinds, n))
  {
    hide BlocksOf, Sides, NoneTwice, Lists, Differ, OddPairs, KindsDiffer;
    NothingTwice();
    if n != 0 {
      var kind := kinds[n - 1];
      FreshKind(kinds, n);
      var lefts := OddPairs(device.Channels(kind));
      KindsNoneTwice(links, declared, device, out, kinds, n - 1);
      KindNoneTwice(links, declared, device, out, kind);
      var before, blocks := KindsOf(links, declared, device, out, kinds, n - 1), BlocksOf(links, declared, out, kind, lefts, |lefts|);
      forall c | Lists(before, c) ensures !Lists(blocks, c) {
        KindsOfLists(links, declared, device, out, kinds, n - 1, c);
        BlocksOfLists(links, declared, out, kind, lefts, |lefts|, c);
      }
      NoneTwiceConcat(before, blocks);
    }
  }

  lemma {:induction false} OutputsNoneTwice(links: Links, declared: set<Cell>, device: Device, kinds: seq<Family>, outs: seq<int>, n: nat)
    requires n <= |outs| && Differ(outs) && forall o :: o in outs ==> o % 2 == 1
    requires KindsDiffer(kinds) && forall kind :: kind in kinds ==> Differ(device.Channels(kind))
    ensures NoneTwice(EntriesOf(links, declared, device, kinds, outs, n))
  {
    hide KindsOf, Sides, NoneTwice, Lists, Differ, OddPairs, KindsDiffer;
    NothingTwice();
    if n != 0 {
      var out := outs[n - 1];
      assert out in outs;
      OutputsNoneTwice(links, declared, device, kinds, outs, n - 1);
      KindsNoneTwice(links, declared, device, out, kinds, |kinds|);
      FreshChannel(outs, n);
      var before, more := EntriesOf(links, declared, device, kinds, outs, n - 1), KindsOf(links, declared, device, out, kinds, |kinds|);
      forall c | Lists(before, c) ensures !Lists(more, c) {
        EntriesOfLists(links, declared, device, kinds, outs, n - 1, c);
        KindsOfLists(links, declared, device, out, kinds, |kinds|, c);
        if c.out in Sides(links, Output, out) {
          SidesKeepPair(links, Output, out, c.out);
        }
      }
      NoneTwiceConcat(before, more);
    }
  }

  /** On a device that lists no channel twice, a base writes no register twice. */
  lemma NoRegisterTwice(base: Kind, links: Links, declared: set<Cell>, device: Device)
    requires forall family: Family :: Differ(device.Channels(family))
    ensures NoneTwice(SilentEntries(base, links, declared, device))
  {
    hide EntriesOf, Differ, NoneTwice;
    var outs := OddPairs(device.outputs);
    assert device.Channels(Output) == device.outputs;
    PairsDiffer(device.outputs, |device.outputs|);
    OutputsNoneTwice(links, declared, device, Silences(base), outs, |outs|);
  }

  // ---- the whole matrix ----

  ghost function RouteCellSet(routes: seq<Route>): set<Cell>
    requires AllWellFormed(routes)
  {
    set r, c | r in routes && c in RouteCells(r) :: c
  }

  /** The registers a base silences beneath these routes. */
  ghost predicate SilencedBeneath(base: Kind, routes: seq<Route>, device: Device, c: Cell)
    requires AllWellFormed(routes)
  {
    Silenced(base, LinksOf(routes, |routes|), RouteCellSet(routes), device, c)
  }

  /** The device has every pair the routes declare as declared; other pairs may be either way. */
  ghost predicate LinksAgree(routes: seq<Route>, linked: LinkState)
    requires AllWellFormed(routes)
  {
    forall f: Family, c: int, b: bool :: Requires(routes, Link(f, c, b)) ==> (((f, c) in linked) == b)
  }

  /** A coefficient of a silenced matrix, between two complete pairs. */
  ghost predicate InSilencedMatrix(base: Kind, device: Device, c: Cell) {
    && Clears(base, c.kind)
    && Odd(c.out) in OddPairs(device.outputs)
    && Odd(c.src) in OddPairs(device.Channels(c.kind))
  }

  /** The mix writes of a whole desk in any order: every route register and every silent one, and nothing else. */
  ghost predicate WholeDesk(base: Kind, routes: seq<Route>, device: Device, writes: seq<MixWrite>)
    requires AllWellFormed(routes)
  {
    && (forall w :: w in writes ==>
        WritesCell(routes, w.cell) || (SilencedBeneath(base, routes, device, w.cell) && w.level <= LEVEL_MIN))
    && (forall c: Cell :: WritesCell(routes, c) || SilencedBeneath(base, routes, device, c) ==> HasWrite(writes, c))
  }

  ghost predicate HasWrite(writes: seq<MixWrite>, c: Cell) {
    exists w :: w in writes && w.cell == c
  }

  /** The registers of a route, by the links it requires. */
  lemma RouteAddresses(r: Route, w: Cell)
    requires WellFormed(r) && w in RouteCells(r)
    ensures w.kind == r.kind && w.kind != Output
    ensures LinkRequirements(r)[0].family == w.kind && LinkRequirements(r)[0].channel == Odd(w.src)
    ensures LinkRequirements(r)[1].family == Output && LinkRequirements(r)[1].channel == Odd(w.out)
    ensures LinkRequirements(r)[0].linked ==> w.src == Odd(w.src)
    ensures LinkRequirements(r)[1].linked ==> w.out == Odd(w.out)
  {
  }

  /** What a declared link says about a register a route writes. */
  ghost predicate AddressedAsLinked(routes: seq<Route>, linked: LinkState, family: Family, channel: int)
    requires AllWellFormed(routes)
  {
    && Requires(routes, Link(family, Odd(channel), (family, Odd(channel)) in linked))
    && ((family, Odd(channel)) in linked ==> channel == Odd(channel))
  }

  lemma RequirementHolds(routes: seq<Route>, linked: LinkState, r: Route, i: nat, channel: int)
    requires AllWellFormed(routes) && LinksAgree(routes, linked)
    requires r in routes && i < 2 && LinkRequirements(r)[i].channel == Odd(channel)
    requires LinkRequirements(r)[i].linked ==> channel == Odd(channel)
    ensures AddressedAsLinked(routes, linked, LinkRequirements(r)[i].family, channel)
  {
    hide LinkRequirements;
    var l := LinkRequirements(r)[i];
    assert l in LinkRequirements(r);
    assert Requires(routes, l);
    assert l == Link(l.family, l.channel, l.linked);
  }

  /** A route states the links of the block it writes in, and addresses it by them. */
  lemma RouteStatesItsBlock(routes: seq<Route>, linked: LinkState, w: Cell)
    requires AllWellFormed(routes) && LinksAgree(routes, linked)
    requires WritesCell(routes, w)
    ensures w.kind != Output
    ensures AddressedAsLinked(routes, linked, Output, w.out)
    ensures AddressedAsLinked(routes, linked, w.kind, w.src)
  {
    hide LinkRequirements, LinksAgree, AddressedAsLinked, RouteCells;
    var r :| r in routes && w in RouteCells(r);
    RouteAddresses(r, w);
    RequirementHolds(routes, linked, r, 0, w.src);
    RequirementHolds(routes, linked, r, 1, w.out);
  }

  lemma RouteCellInSet(routes: seq<Route>, w: Cell)
    requires AllWellFormed(routes)
    ensures w in RouteCellSet(routes) <==> WritesCell(routes, w)
  {
  }

  /** The declared flag of a pair some route states. */
  lemma DeclaredAsRequired(routes: seq<Route>, family: Family, channel: int, linked: bool)
    requires AllWellFormed(routes) && LinkConsistent(routes)
    requires Requires(routes, Link(family, channel, linked))
    ensures (family, channel) in LinksOf(routes, |routes|) && LinksOf(routes, |routes|)[(family, channel)] == linked
  {
    hide LinksOf, Requires;
    assert routes[..|routes|] == routes;
    LinksOfMeaning(routes, |routes|, family, channel);
  }

  /** No silence write ever folds onto a register a route sets. */
  lemma SilenceNeverFoldsOntoARoute(base: Kind, routes: seq<Route>, device: Device, linked: LinkState, e: Cell, w: Cell, c: Cell)
    requires AllWellFormed(routes) && LinkConsistent(routes) && LinksAgree(routes, linked)
    requires SilencedBeneath(base, routes, device, e) && WritesCell(routes, w)
    ensures !(Owns(linked, e, c) && Owns(linked, w, c))
  {
    hide LinksAgree, LinkConsistent, Requires, LinksOf, RouteCellSet, OddPairs, Clears, WritesCell;
    RouteCellInSet(routes, w);
    if Owns(linked, e, c) && Owns(linked, w, c) {
      RouteStatesItsBlock(routes, linked, w);
      DeclaredAsRequired(routes, Output, Odd(w.out), (Output, Odd(w.out)) in linked);
      DeclaredAsRequired(routes, w.kind, Odd(w.src), (w.kind, Odd(w.src)) in linked);
    }
  }

  /** The register that owns a channel on one side of a block: the odd one of a pair declared linked. */
  lemma SideReaches(routes: seq<Route>, linked: LinkState, family: Family, channel: int) returns (side: int)
    requires AllWellFormed(routes) && LinkConsistent(routes) && LinksAgree(routes, linked)
    ensures Odd(side) == Odd(channel) && side in Sides(LinksOf(routes, |routes|), family, Odd(channel))
    ensures Reaches(linked, family, side, channel)
  {
    hide LinksOf, Requires, LinkConsistent;
    var links, pair := LinksOf(routes, |routes|), (family, Odd(channel));
    assert routes[..|routes|] == routes;
    LinksOfMeaning(routes, |routes|, family, Odd(channel));
    if pair in links && links[pair] {
      side := Odd(channel);
      assert Requires(routes, Link(family, Odd(channel), true));
    } else {
      side := channel;
    }
  }

  /** Every coefficient of a silenced matrix is owned by a register the desk writes. */
  lemma EveryCoefficientIsWritten(base: Kind, routes: seq<Route>, device: Device, linked: LinkState, c: Cell) returns (register: Cell)
    requires AllWellFormed(routes) && LinkConsistent(routes) && LinksAgree(routes, linked)
    requires InSilencedMatrix(base, device, c)
    ensures WritesCell(routes, register) || SilencedBeneath(base, routes, device, register)
    ensures Owns(linked, register, c)
  {
    hide LinksAgree, LinkConsistent, Requires, LinksOf, RouteCellSet, OddPairs, Clears, WritesCell, Sides, Reaches;
    var out := SideReaches(routes, linked, Output, c.out);
    var src := SideReaches(routes, linked, c.kind, c.src);
    register := Cell(out, c.kind, src);
    RouteCellInSet(routes, register);
  }

  /** Route registers own the same coefficients, and leave the same sound, on any two devices that agree on the declared links. */
  lemma RoutesReachAlike(routes: seq<Route>, linked1: LinkState, linked2: LinkState, w: MixWrite, c: Cell)
    requires AllWellFormed(routes) && LinkConsistent(routes)
    requires LinksAgree(routes, linked1) && LinksAgree(routes, linked2)
    requires WritesCell(routes, w.cell)
    ensures Owns(linked1, w.cell, c) <==> Owns(linked2, w.cell, c)
    ensures Owns(linked1, w.cell, c) ==> Heard(linked1, w, c) == Heard(linked2, w, c)
  {
    hide Requires, LinksAgree, LinkConsistent, WritesCell;
    RouteStatesItsBlock(routes, linked1, w.cell);
    RouteStatesItsBlock(routes, linked2, w.cell);
    OneState(routes, Output, Odd(w.cell.out), (Output, Odd(w.cell.out)) in linked1, (Output, Odd(w.cell.out)) in linked2);
    OneState(routes, w.cell.kind, Odd(w.cell.src), (w.cell.kind, Odd(w.cell.src)) in linked1, (w.cell.kind, Odd(w.cell.src)) in linked2);
  }

  lemma OneState(routes: seq<Route>, family: Family, channel: int, a: bool, b: bool)
    requires AllWellFormed(routes) && LinkConsistent(routes)
    requires Requires(routes, Link(family, channel, a)) && Requires(routes, Link(family, channel, b))
    ensures a == b
  {
    hide Requires;
  }

  /**
   * Once the declared links stand and the desk's mix writes have landed, in any order,
   * every coefficient of a silenced matrix is the same whatever the device held before
   * and however its undeclared pairs are linked, and it is silent unless a route owns it.
   */
  lemma BaseDeterminesTheMatrix(base: Kind, routes: seq<Route>, device: Device, writes: seq<MixWrite>, c: Cell,
                                prior1: Cell -> Sound, linked1: LinkState, prior2: Cell -> Sound, linked2: LinkState)
    requires AllWellFormed(routes) && LinkConsistent(routes)
    requires LinksAgree(routes, linked1) && LinksAgree(routes, linked2)
    requires WholeDesk(base, routes, device, writes) && InSilencedMatrix(base, device, c)
    ensures Held(prior1, linked1, writes, c) == Held(prior2, linked2, writes, c)
    ensures (forall w: Cell :: WritesCell(routes, w) ==> !Owns(linked1, w, c)) ==> Held(prior1, linked1, writes, c) == Silence
  {
    hide LinksAgree, LinkConsistent, SilencedBeneath, WritesCell, Owns, Heard, InSilencedMatrix;
    var i1 := LastOwner(base, routes, device, writes, c, prior1, linked1);
    var i2 := LastOwner(base, routes, device, writes, c, prior2, linked2);
    assert writes[i1] in writes && writes[i2] in writes;
    if WritesCell(routes, writes[i1].cell) {
      RoutesReachAlike(routes, linked1, linked2, writes[i1], c);
      if !WritesCell(routes, writes[i2].cell) {
        SilenceNeverFoldsOntoARoute(base, routes, device, linked2, writes[i2].cell, writes[i1].cell, c);
      }
      RoutesReachAlike(routes, linked1, linked2, writes[i2], c);
    } else {
      if WritesCell(routes, writes[i2].cell) {
        RoutesReachAlike(routes, linked1, linked2, writes[i2], c);
        SilenceNeverFoldsOntoARoute(base, routes, device, linked1, writes[i1].cell, writes[i2].cell, c);
      }
      SilenceIsHeard(linked1, writes[i1], c);
      SilenceIsHeard(linked2, writes[i2], c);
    }
  }

  /** A matrix the base does not clear keeps what the device held, wherever no route writes. */
  lemma OtherMatricesStay(base: Kind, routes: seq<Route>, device: Device, writes: seq<MixWrite>, c: Cell, prior: Cell -> Sound, linked: LinkState)
    requires AllWellFormed(routes) && WholeDesk(base, routes, device, writes) && !Clears(base, c.kind)
    requires forall w: Cell :: WritesCell(routes, w) ==> !Owns(linked, w, c)
    ensures Held(prior, linked, writes, c) == prior(c)
  {
    hide WritesCell, Reaches, Heard, LinksOf, RouteCellSet, OddPairs, Sides;
    forall w | w in writes ensures !Owns(linked, w.cell, c) {
      if !WritesCell(routes, w.cell) {
        assert SilencedBeneath(base, routes, device, w.cell);
      }
    }
    NobodyOwns(prior, linked, writes, c);
  }

  lemma {:induction false} NobodyOwns(prior: Cell -> Sound, linked: LinkState, writes: seq<MixWrite>, c: Cell)
    requires forall w :: w in writes ==> !Owns(linked, w.cell, c)
    ensures Held(prior, linked, writes, c) == prior(c)
  {
    if writes != [] {
      assert writes[|writes| - 1] in writes;
      NobodyOwns(prior, linked, writes[..|writes| - 1], c);
    }
  }

  /** Without a declared link or route: every cell between two pairs is listed exactly for the bases that clear its kind. */
  lemma ListedExactly(base: Kind, device: Device, c: Cell)
    requires Odd(c.out) in OddPairs(device.outputs) && Odd(c.src) in OddPairs(device.Channels(c.kind))
    ensures Lists(SilentEntries(base, map[], {}, device), c) <==>
      (c.kind == Input && base in {ClearInputs, ClearSubmixes, Daw}) || (c.kind == Playback && base in {StraightPlayback, ClearSubmixes, Daw})
  {
    hide SilentEntries, Lists, OddPairs;
    EntriesAreTheSilencedCells(base, map[], {}, device, c);
    BothSides(c.out);
    BothSides(c.src);
  }

  /** An undeclared pair has both its channels. */
  lemma BothSides(channel: int)
    ensures forall family: Family :: channel in Sides(map[], family, Odd(channel))
  {
  }

  lemma SilenceIsHeard(linked: LinkState, w: MixWrite, c: Cell)
    requires w.level <= LEVEL_MIN
    ensures Heard(linked, w, c) == Silence
  {
  }

  /** The write that decides a coefficient of a silenced matrix: there always is one. */
  lemma LastOwner(base: Kind, routes: seq<Route>, device: Device, writes: seq<MixWrite>, c: Cell,
                  prior: Cell -> Sound, linked: LinkState) returns (i: nat)
    requires AllWellFormed(routes) && LinkConsistent(routes) && LinksAgree(routes, linked)
    requires WholeDesk(base, routes, device, writes) && InSilencedMatrix(base, device, c)
    ensures i < |writes| && Owns(linked, writes[i].cell, c)
    ensures forall j :: i < j < |writes| ==> !Owns(linked, writes[j].cell, c)
    ensures Held(prior, linked, writes, c) == Heard(linked, writes[i], c)
  {
    hide LinksAgree, LinkConsistent, SilencedBeneath, WritesCell, Owns, Heard, InSilencedMatrix;
    var register := EveryCoefficientIsWritten(base, routes, device, linked, c);
    assert HasWrite(writes, register);
    var w :| w in writes && w.cell == register;
    i := HeldByLast(prior, linked, writes, c);
  }

  // ---- the links come first ----

  /** Every route's link writes, in order. */
  function LinkWrites(routes: seq<Route>, n: nat): seq<Link>
    requires n <= |routes| && forall r :: r in routes ==> WellFormed(r)
  {
    if n == 0 then [] else LinkWrites(routes, n - 1) + LinkRequirements(routes[n - 1])
  }

  lemma {:induction false} LinkWritesMeaning(routes: seq<Route>, n: nat, l: Link)
    requires AllWellFormed(routes) && n <= |routes|
    ensures l in LinkWrites(routes, n) <==> Requires(routes[..n], l)
  {
    hide LinkRequirements;
    if n != 0 {
      LinkWritesMeaning(routes, n - 1, l);
      assert l == Link(l.family, l.channel, l.linked);
      LinksStep(routes, n, l.family, l.channel);
    }
  }

  /** Writing the declared links leaves a device that agrees on them, whatever it had before. */
  lemma LinkWritesEstablish(routes: seq<Route>, linked: LinkState)
    requires AllWellFormed(routes) && LinkConsistent(routes)
    ensures LinksAgree(routes, AfterLinks(linked, LinkWrites(routes, |routes|)))
  {
    hide Requires, LinkWrites, AfterLinks;
    var writes := LinkWrites(routes, |routes|);
    assert routes[..|routes|] == routes;
    forall f: Family, c: int, b: bool | Requires(routes, Link(f, c, b))
      ensures ((f, c) in AfterLinks(linked, writes)) == b
    {
      LinkWritesMeaning(routes, |routes|, Link(f, c, b));
      LinkWritesMeaning(routes, |routes|, Link(f, c, !b));
      forall m | m in writes && m.family == f && m.channel == c ensures m.linked == b {
        assert m == Link(f, c, m.linked);
      }
      DeclaredLinksHold(linked, writes, Link(f, c, b));
    }
  }

  // ---- which silent registers are compared ----

  /** Whether the device speaks of this register: of a linked pair it gives the odd channel's alone. */
  predicate Reported(linked: LinkState, c: Cell) {
    && ((Output, Odd(c.out)) in linked ==> c.out == Odd(c.out))
    && ((c.kind, Odd(c.src)) in linked ==> c.src == Odd(c.src))
  }

  ghost predicate NeverFolds(links: Links, c: Cell) {
    && (c.out == Odd(c.out) || (Output, Odd(c.out)) in links)
    && (c.src == Odd(c.src) || (c.kind, Odd(c.src)) in links)
  }

  ghost predicate ComparedRight(entries: seq<BaseEntry>, links: Links) {
    forall e :: e in entries ==> e.compared == NeverFolds(links, e.cell)
  }

  lemma {:induction false} RowCompared(links: Links, declared: set<Cell>, out: int, target: int, kind: Family, source: int,
                                       channels: seq<int>, n: nat)
    requires n <= |channels| && Odd(target) == out && forall ch :: ch in channels ==> Odd(ch) == source
    ensures ComparedRight(Row(links, declared, out, target, kind, source, channels, n), links)
  {
    if n != 0 {
      RowCompared(links, declared, out, target, kind, source, channels, n - 1);
      assert channels[n - 1] in channels;
    }
  }

  lemma {:induction false} BlockCompared(links: Links, declared: set<Cell>, out: int, targets: seq<int>, kind: Family, source: int, n: nat)
    requires n <= |targets| && source % 2 == 1 && forall t :: t in targets ==> Odd(t) == out
    ensures ComparedRight(Block(links, declared, out, targets, kind, source, n), links)
  {
    hide Row;
    if n != 0 {
      BlockCompared(links, declared, out, targets, kind, source, n - 1);
      assert targets[n - 1] in targets;
      RowCompared(links, declared, out, targets[n - 1], kind, source, Sides(links, kind, source), |Sides(links, kind, source)|);
    }
  }

  lemma {:induction false} BlocksCompared(links: Links, declared: set<Cell>, out: int, kind: Family, sources: seq<int>, n: nat)
    requires n <= |sources| && out % 2 == 1 && forall s :: s in sources ==> s % 2 == 1
    ensures ComparedRight(BlocksOf(links, declared, out, kind, sources, n), links)
  {
    hide Block;
    if n != 0 {
      BlocksCompared(links, declared, out, kind, sources, n - 1);
      assert sources[n - 1] in sources;
      BlockCompared(links, declared, out, Sides(links, Output, out), kind, sources[n - 1], |Sides(links, Output, out)|);
    }
  }

  lemma {:induction false} KindsCompared(links: Links, declared: set<Cell>, device: Device, out: int, kinds: seq<Family>, n: nat)
    requires n <= |kinds| && out % 2 == 1
    ensures ComparedRight(KindsOf(links, declared, device, out, kinds, n), links)
  {
    hide BlocksOf, OddPairs;
    OddPairsAreOdd(device);
    if n != 0 {
      KindsCompared(links, declared, device, out, kinds, n - 1);
      var lefts := OddPairs(device.Channels(kinds[n - 1]));
      BlocksCompared(links, declared, out, kinds[n - 1], lefts, |lefts|);
    }
  }

  lemma {:induction false} EntriesCompared(links: Links, declared: set<Cell>, device: Device, kinds: seq<Family>, outs: seq<int>, n: nat)
    requires n <= |outs| && forall o :: o in outs ==> o % 2 == 1
    ensures ComparedRight(EntriesOf(links, declared, device, kinds, outs, n), links)
  {
    hide KindsOf;
    if n != 0 {
      EntriesCompared(links, declared, device, kinds, outs, n - 1);
      assert outs[n - 1] in outs;
      KindsCompared(links, declared, device, outs[n - 1], kinds, |kinds|);
    }
  }

  /**
   * A silent register is compared exactly when the device reports it in every link state
   * that agrees with the desk; the others may fold onto their partner.
   */
  lemma ComparedMeansAlwaysReported(base: Kind, routes: seq<Route>, device: Device, e: BaseEntry)
    requires AllWellFormed(routes) && LinkConsistent(routes)
    requires e in SilentEntries(base, LinksOf(routes, |routes|), RouteCellSet(routes), device)
    ensures e.compared <==> forall linked: LinkState :: LinksAgree(routes, linked) ==> Reported(linked, e.cell)
  {
    hide LinksAgree, LinksOf, EntriesOf, Requires, LinkWrites, AfterLinks, OddPairs;
    var links := LinksOf(routes, |routes|);
    var outs := OddPairs(device.Channels(Output));
    OddPairsAreOdd(device);
    EntriesCompared(links, RouteCellSet(routes), device, Silences(base), outs, |outs|);
    assert Lists(SilentEntries(base, links, RouteCellSet(routes), device), e.cell);
    EntriesAreTheSilencedCells(base, links, RouteCellSet(routes), device, e.cell);
    forall linked: LinkState | e.compared && LinksAgree(routes, linked) ensures Reported(linked, e.cell) {
      SideIsReported(routes, linked, Output, e.cell.out);
      SideIsReported(routes, linked, e.cell.kind, e.cell.src);
    }
    if !e.compared {
      var family, channel := Output, e.cell.out;
      if e.cell.out == Odd(e.cell.out) || (Output, Odd(e.cell.out)) in links {
        family, channel := e.cell.kind, e.cell.src;
      }
      var linked := AfterLinks({(family, Odd(channel))}, LinkWrites(routes, |routes|));
      LinkWritesEstablish(routes, {(family, Odd(channel))});
      UndeclaredStaysLinked(routes, |routes|, {(family, Odd(channel))}, family, Odd(channel));
      assert !Reported(linked, e.cell);
    }
  }

  lemma SideIsReported(routes: seq<Route>, linked: LinkState, family: Family, channel: int)
    requires AllWellFormed(routes) && LinkConsistent(routes) && LinksAgree(routes, linked)
    requires channel in Sides(LinksOf(routes, |routes|), family, Odd(channel))
    requires channel == Odd(channel) || (family, Odd(channel)) in LinksOf(routes, |routes|)
    ensures (family, Odd(channel)) in linked ==> channel == Odd(channel)
  {
    hide LinksOf, Requires, LinkConsistent;
    LinksOfMeaning(routes, |routes|, family, Odd(channel));
    assert routes[..|routes|] == routes;
  }

  /** A pair no route declares keeps the state the device had. */
  lemma {:induction false} UndeclaredStaysLinked(routes: seq<Route>, n: nat, linked: LinkState, family: Family, channel: int)
    requires AllWellFormed(routes) && LinkConsistent(routes) && n <= |routes|
    requires (family, channel) !in LinksOf(routes, n) && (family, channel) in linked
    ensures (family, channel) in AfterLinks(linked, LinkWrites(routes, n))
  {
    if n != 0 {
      UndeclaredStaysLinked(routes, n - 1, linked, family, channel);
      var q := LinkRequirements(routes[n - 1]);
      var before := LinkWrites(routes, n - 1);
      var all := before + q;
      assert all[..|all| - 1] == before + [q[0]] && (before + [q[0]])[..|before|] == before;
      assert AfterLinks(linked, before + [q[0]]) ==
        if q[0].linked then AfterLinks(linked, before) + {(q[0].family, q[0].channel)}
        else AfterLinks(linked, before) - {(q[0].family, q[0].channel)};
    }
  }
}
