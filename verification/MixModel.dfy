/** Routes, the stereo links they need, the matrix cells they write, and a device that folds writes. */
module MixModel {
  import opened Wrappers

  datatype Family = Input | Playback | Output

  /** One matrix register: /mix/<out>/<kind>/<src>. */
  datatype Cell = Cell(out: int, kind: Family, src: int)

  datatype Route = Route(
    name: string, kind: Family, source: seq<int>, output: seq<int>, level: real, volume: Option<real>,
    stereo: bool, pan: int, mirrorOf: seq<int>, base: bool)

  /** A pair, named by its odd channel, and whether a route needs it linked. */
  datatype Link = Link(family: Family, channel: int, linked: bool)

  datatype MixWrite = MixWrite(cell: Cell, level: real, pan: int)

  /** The pair flags a desk declares: a pair absent from the map is left as the device has it. */
  type Links = map<(Family, int), bool>

  const LEVEL_MIN := -65.0
  const LEVEL_MAX := 6.0

  /** The odd channel of a channel's pair. */
  function Odd(channel: int): int { if channel % 2 == 1 then channel else channel - 1 }

  predicate IsPair(channels: seq<int>) {
    |channels| == 2 && channels[0] % 2 == 1 && channels[1] == channels[0] + 1
  }

  /** What parsing guarantees of a route: source and output are both one channel or both an aligned pair. */
  predicate WellFormed(r: Route) {
    && r.kind != Output
    && ((|r.source| == 1 && |r.output| == 1) || (IsPair(r.source) && IsPair(r.output)))
  }

  function LinkRequirements(r: Route): (links: seq<Link>)
    requires WellFormed(r)
    ensures |links| == 2
  {
    [Link(r.kind, Odd(r.source[0]), |r.source| == 2),
     Link(Output, Odd(r.output[0]), |r.output| == 2 && r.stereo)]
  }

  ghost predicate AllWellFormed(routes: seq<Route>) {
    forall r :: r in routes ==> WellFormed(r)
  }

  ghost predicate Requires(routes: seq<Route>, link: Link)
    requires AllWellFormed(routes)
  {
    exists r :: r in routes && link in LinkRequirements(r)
  }

  /** No two routes want different states of one pair. */
  ghost predicate LinkConsistent(routes: seq<Route>)
    requires AllWellFormed(routes)
  {
    forall f: Family, c: int :: !(Requires(routes, Link(f, c, true)) && Requires(routes, Link(f, c, false)))
  }

  /** The cells a route addresses: its pair register, its two hard-panned registers, or its one cell. */
  function RouteCells(r: Route): (cells: seq<Cell>)
    requires WellFormed(r)
  {
    if |r.output| == 2 && !r.stereo
    then [Cell(r.output[0], r.kind, r.source[0]), Cell(r.output[1], r.kind, r.source[0])]
    else [Cell(r.output[0], r.kind, r.source[0])]
  }

  ghost predicate WritesCell(routes: seq<Route>, c: Cell)
    requires AllWellFormed(routes)
  {
    exists r :: r in routes && c in RouteCells(r)
  }

  // ---- the folding device ----

  type LinkState = set<(Family, int)>

  /** A physical coefficient: silence, or what one write put at one place of its group. */
  datatype Sound = Silence | Prior(id: int) | Tone(level: real, pan: int, outputLinked: bool, sourceLinked: bool, right: bool, second: bool)

  /** Whether a write to channel `addressed` of a family reaches `channel`: the whole pair when it is linked. */
  predicate Reaches(linked: LinkState, family: Family, addressed: int, channel: int) {
    if (family, Odd(addressed)) in linked then Odd(addressed) == Odd(channel) else addressed == channel
  }

  /** The group of physical coefficients a register owns under the current links. */
  predicate Owns(linked: LinkState, register: Cell, coefficient: Cell) {
    && register.kind == coefficient.kind
    && Reaches(linked, Output, register.out, coefficient.out)
    && Reaches(linked, register.kind, register.src, coefficient.src)
  }

  /** What a write leaves at one coefficient of its group; the explicit zero is silence in every addressing. */
  function Heard(linked: LinkState, w: MixWrite, c: Cell): Sound {
    if w.level <= LEVEL_MIN then Silence
    else Tone(w.level, w.pan, (Output, Odd(c.out)) in linked, (c.kind, Odd(c.src)) in linked,
              c.out != Odd(c.out), c.src != Odd(c.src))
  }

  /** The coefficient after the writes: the last one whose group holds it, else what was there. */
  function Held(prior: Cell -> Sound, linked: LinkState, writes: seq<MixWrite>, c: Cell): Sound {
    if writes == [] then prior(c)
    else if Owns(linked, writes[|writes| - 1].cell, c) then Heard(linked, writes[|writes| - 1], c)
    else Held(prior, linked, writes[..|writes| - 1], c)
  }

  /** Link writes in order; the last one for a pair decides. */
  function AfterLinks(linked: LinkState, links: seq<Link>): LinkState {
    if links == [] then linked
    else
      var l := links[|links| - 1];
      var before := AfterLinks(linked, links[..|links| - 1]);
      if l.linked then before + {(l.family, l.channel)} else before - {(l.family, l.channel)}
  }

  /** What the last write owning a coefficient left decides it, whatever was there before. */
  lemma {:induction false} HeldByLast(prior: Cell -> Sound, linked: LinkState, writes: seq<MixWrite>, c: Cell) returns (i: nat)
    requires exists w :: w in writes && Owns(linked, w.cell, c)
    ensures i < |writes| && Owns(linked, writes[i].cell, c)
    ensures forall j :: i < j < |writes| ==> !Owns(linked, writes[j].cell, c)
    ensures Held(prior, linked, writes, c) == Heard(linked, writes[i], c)
  {
    var n := |writes| - 1;
    if Owns(linked, writes[n].cell, c) {
      i := n;
    } else {
      var w :| w in writes && Owns(linked, w.cell, c);
      assert w in writes[..n];
      i := HeldByLast(prior, linked, writes[..n], c);
    }
  }

  /** Declared links are what the device has after the link writes, whatever it had before. */
  lemma {:induction false} DeclaredLinksHold(linked: LinkState, links: seq<Link>, l: Link)
    requires l in links
    requires forall m :: m in links && m.family == l.family && m.channel == l.channel ==> m.linked == l.linked
    ensures (l.family, l.channel) in AfterLinks(linked, links) <==> l.linked
  {
    var n := |links| - 1;
    var last := links[n];
    if last.family == l.family && last.channel == l.channel {
      assert last.linked == l.linked;
    } else {
      assert l in links[..n];
      DeclaredLinksHold(linked, links[..n], l);
    }
  }
}
