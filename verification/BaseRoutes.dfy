/** The routes a straight-playback base declares, and why mirrors can copy them. */
module BaseRoutes {
  import opened Wrappers
  import opened MixModel
  import opened Base
  import opened Mirrors

  datatype SettingValue = Switch(on: bool) | Whole(i: int) | Decimal(x: real) | Name(s: string)

  datatype Setting = Setting(family: Family, channel: int, option: string, value: SettingValue)

  datatype BaseError = MonoPlaybackOnLinkedOutput | HalfMirrorTarget | MirroredAlone | MonoOnMirroredPair | SetApart

  predicate Straight(base: Kind) { base == StraightPlayback || base == Daw }

  /** The value a channel's section gives an option; the last one counts. */
  function ValueOf(settings: seq<Setting>, family: Family, channel: int, option: string): Option<SettingValue> {
    if settings == [] then None
    else
      var s := settings[|settings| - 1];
      if s.family == family && s.channel == channel && s.option == option then Some(s.value)
      else ValueOf(settings[..|settings| - 1], family, channel, option)
  }

  /** Whether linking a pair would merge nothing the desk keeps apart. */
  predicate SetAlike(settings: seq<Setting>, family: Family, left: int) {
    forall s :: s in settings && s.family == family && (s.channel == left || s.channel == left + 1) ==>
      ValueOf(settings, family, left, s.option) == ValueOf(settings, family, left + 1, s.option)
  }

  lemma {:induction false} ValueHasSetting(settings: seq<Setting>, family: Family, channel: int, option: string)
    ensures ValueOf(settings, family, channel, option).Some? ==>
      exists s :: s in settings && s.family == family && s.channel == channel && s.option == option
  {
    if settings != [] {
      ValueHasSetting(settings[..|settings| - 1], family, channel, option);
      var s := settings[|settings| - 1];
      assert s in settings;
    }
  }

  /** Alike means every option, declared or not, has one value on both channels. */
  lemma SetAlikeMeaning(settings: seq<Setting>, family: Family, left: int, option: string)
    requires SetAlike(settings, family, left)
    ensures ValueOf(settings, family, left, option) == ValueOf(settings, family, left + 1, option)
  {
    ValueHasSetting(settings, family, left, option);
    ValueHasSetting(settings, family, left + 1, option);
  }

  /** Everything one output pair's decision depends on. */
  datatype Context = Context(
    links: Links, settings: seq<Setting>, targets: map<int, int>, mirrored: set<int>, alone: set<int>, paired: set<int>,
    taken: set<(int, int)>, playback: set<int>)

  function Declared(links: Links, family: Family, left: int): Option<bool> {
    if (family, left) in links then Some(links[(family, left)]) else None
  }

  function BaseRoute(output: seq<int>, source: seq<int>, stereo: bool): Route {
    Route("[desk] base", Playback, source, output, 0.0, None, stereo, 0, [], true)
  }

  /** The 1:1 of one pair: two mono routes, a pair of them or one stereo route, less what is taken; or why it cannot be had. */
  function Diagonal(left: int, playback: Option<bool>, output: Option<bool>, taken: set<(int, int)>): Result<seq<Route>, BaseError> {
    if playback == Some(false) && output == Some(true) then Err(MonoPlaybackOnLinkedOutput)
    else if playback == Some(false) then
      Ok((if (left, left) in taken then [] else [BaseRoute([left], [left], true)])
         + (if (left + 1, left + 1) in taken then [] else [BaseRoute([left + 1], [left + 1], true)]))
    else if {(left, left), (left, left + 1), (left + 1, left), (left + 1, left + 1)} !! taken then
      Ok([BaseRoute([left, left + 1], [left, left + 1], output != Some(false))])
    else Ok([])
  }

  /** Why the mirrors around a 1:1 could not copy it, if they could not. */
  function MirrorProblem(c: Context, left: int, diagonal: seq<Route>): Option<BaseError> {
    if diagonal == [] then None
    else if left in c.mirrored || left + 1 in c.mirrored then Some(HalfMirrorTarget)
    else if (exists r :: r in diagonal && |r.output| == 2) && (left in c.alone || left + 1 in c.alone) then Some(MirroredAlone)
    else if (exists r :: r in diagonal && |r.output| == 1) && left in c.paired then Some(MonoOnMirroredPair)
    else None
  }

  /** The pairs a diagonal links that the desk does not declare, with the last mirror's target of its output. */
  function Owned(c: Context, left: int, diagonal: seq<Route>): set<(Family, int)>
    requires AllWellFormed(diagonal)
  {
    var own := set r, l | r in diagonal && l in LinkRequirements(r) && l.linked && (l.family, l.channel) !in c.links
      :: (l.family, l.channel);
    if (Output, left) in own && left in c.targets then own + {(Output, c.targets[left])} else own
  }

  lemma DiagonalIsWellFormed(left: int, playback: Option<bool>, output: Option<bool>, taken: set<(int, int)>)
    requires left % 2 == 1
    ensures Diagonal(left, playback, output, taken).Ok? ==> AllWellFormed(Diagonal(left, playback, output, taken).value)
  {
  }

  /** What the base adds for one output pair, or the first refusal. */
  function RoutesAt(c: Context, left: int): Result<seq<Route>, BaseError>
    requires left % 2 == 1
  {
    DiagonalIsWellFormed(left, Declared(c.links, Playback, left), Declared(c.links, Output, left), c.taken);
    if left !in c.playback || (left in c.mirrored && left + 1 in c.mirrored) then Ok([])
    else
      match Diagonal(left, Declared(c.links, Playback, left), Declared(c.links, Output, left), c.taken)
      case Err(e) => Err(e)
      case Ok(diagonal) =>
        match MirrorProblem(c, left, diagonal)
        case Some(e) => Err(e)
        case None =>
          if exists p :: p in Owned(c, left, diagonal) && !SetAlike(c.settings, p.0, p.1) then Err(SetApart)
          else Ok(diagonal)
  }

  function RoutesUpTo(c: Context, outs: seq<int>, n: nat): Result<seq<Route>, BaseError>
    requires n <= |outs| && forall o :: o in outs ==> o % 2 == 1
  {
    if n == 0 then Ok([])
    else
      match RoutesUpTo(c, outs, n - 1)
      case Err(e) => Err(e)
      case Ok(before) =>
        assert outs[n - 1] in outs;
        match RoutesAt(c, outs[n - 1])
        case Err(e) => Err(e)
        case Ok(more) => Ok(before + more)
  }

  /** A later mirror of the same source pair replaces the earlier one in this table. */
  function TargetsOf(mirrors: seq<Mirror>, n: nat): map<int, int>
    requires n <= |mirrors| && forall m :: m in mirrors ==> ParsedMirror(m)
  {
    if n == 0 then map[]
    else
      var m := mirrors[n - 1];
      assert m in mirrors;
      if |m.source| == 2 then TargetsOf(mirrors, n - 1)[m.source[0] := m.target[0]] else TargetsOf(mirrors, n - 1)
  }

  function ContextOf(routes: seq<Route>, settings: seq<Setting>, mirrors: seq<Mirror>, device: Device): Context
    requires forall r :: r in routes ==> WellFormed(r)
    requires forall m :: m in mirrors ==> ParsedMirror(m)
  {
    Context(
      LinksOf(routes, |routes|), settings, TargetsOf(mirrors, |mirrors|),
      set m, ch | m in mirrors && ch in m.target :: ch,
      set m | m in mirrors && |m.source| == 1 :: m.source[0],
      set m | m in mirrors && |m.source| == 2 :: m.source[0],
      set r, o, p | r in routes && r.kind == Playback && o in r.output && p in r.source :: (o, p),
      set p | p in OddPairs(device.playbacks))
  }

  /** The decision for one output pair: what is linked anew is gathered first, then checked pair by pair. */
  method PairRoutes(c: Context, left: int) returns (r: Result<seq<Route>, BaseError>)
    requires left % 2 == 1
    ensures r == RoutesAt(c, left)
  {
    if left !in c.playback || (left in c.mirrored && left + 1 in c.mirrored) {
      return Ok([]);
    }
    DiagonalIsWellFormed(left, Declared(c.links, Playback, left), Declared(c.links, Output, left), c.taken);
    var shaped := Diagonal(left, Declared(c.links, Playback, left), Declared(c.links, Output, left), c.taken);
    if shaped.Err? {
      return shaped;
    }
    var diagonal := shaped.value;
    var problem := MirrorProblem(c, left, diagonal);
    if problem.Some? {
      return Err(problem.value);
    }
    var owned := set r, l | r in diagonal && l in LinkRequirements(r) && l.linked && (l.family, l.channel) !in c.links
      :: (l.family, l.channel);
    if (Output, left) in owned && left in c.targets {
      owned := owned + {(Output, c.targets[left])};
    }
    assert owned == Owned(c, left, diagonal);
    r := CheckAlike(c, owned, diagonal);
  }

  /** A link may merge nothing the desk sets apart. */
  method CheckAlike(c: Context, owned: set<(Family, int)>, diagonal: seq<Route>) returns (r: Result<seq<Route>, BaseError>)
    ensures r == if exists p :: p in owned && !SetAlike(c.settings, p.0, p.1) then Err(SetApart) else Ok(diagonal)
  {
    hide SetAlike;
    var left := owned;
    while left != {}
      invariant left <= owned
      invariant forall p :: p in owned && p !in left ==> SetAlike(c.settings, p.0, p.1)
      decreases left
    {
      var p :| p in left;
      if !SetAlike(c.settings, p.0, p.1) {
        return Err(SetApart);
      }
      left := left - {p};
    }
    r := Ok(diagonal);
  }

  /** The first of these output pairs that is refused, is refused for this reason. */
  ghost predicate FirstRefusal(c: Context, outs: seq<int>, error: BaseError) {
    exists k :: 0 <= k < |outs| && RefusedFirstAt(c, outs, k, error)
  }

  ghost predicate RefusedFirstAt(c: Context, outs: seq<int>, k: nat, error: BaseError)
    requires k < |outs|
  {
    && outs[k] % 2 == 1 && RoutesAt(c, outs[k]) == Err(error)
    && forall j :: 0 <= j < k ==> outs[j] % 2 == 1 && RoutesAt(c, outs[j]).Ok?
  }

  /** Every route here is an accepted route of its own output pair, among these. */
  ghost predicate AllAccepted(c: Context, outs: seq<int>, routes: seq<Route>) {
    forall b :: b in routes ==> exists left :: left in outs && AcceptedAt(c, left, b)
  }

  /**
   * What a straight base adds beneath the routes, and nothing for any other base: every route is
   * accepted at its own pair, and a refusal is that of the first pair refused.
   */
  method BaseRoutes(base: Kind, routes: seq<Route>, settings: seq<Setting>, mirrors: seq<Mirror>, device: Device)
      returns (r: Result<seq<Route>, BaseError>)
    requires AllWellFormed(routes) && AllParsed(mirrors)
    ensures base in {Keep, ClearInputs, ClearSubmixes} ==> r == Ok([])
    ensures base in {StraightPlayback, Daw} && r.Ok? ==>
      && AcceptedBase(routes, settings, mirrors, device, r.value)
      && AllAccepted(ContextOf(routes, settings, mirrors, device), OddPairs(device.outputs), r.value)
    ensures base in {StraightPlayback, Daw} && r.Err? ==> FirstRefusal(ContextOf(routes, settings, mirrors, device), OddPairs(device.outputs), r.error)
  {
    if !Straight(base) {
      return Ok([]);
    }
    var c := ContextOf(routes, settings, mirrors, device);
    var outs := OddPairs(device.outputs);
    var added: seq<Route> := [];
    NoneYet(c, outs);
    hide *;
    for i := 0 to |outs|
      invariant AcceptedUpTo(c, outs, i, added)
    {
      assert outs[i] in outs;
      var at := PairRoutes(c, outs[i]);
      if at.Err? {
        RefusedHere(c, outs, i, added, at.error);
        return Err(at.error);
      }
      OneMorePair(c, outs, i, added, at.value);
      added := added + at.value;
    }
    EveryPair(routes, settings, mirrors, device, added);
    r := Ok(added);
  }

  /** The first n pairs are accepted, and these are their routes. */
  ghost predicate AcceptedUpTo(c: Context, outs: seq<int>, n: nat, added: seq<Route>)
    requires n <= |outs|
  {
    && (forall o :: o in outs ==> o % 2 == 1)
    && RoutesUpTo(c, outs, n) == Ok(added) && AllAccepted(c, outs, added)
    && forall j :: 0 <= j < n ==> outs[j] % 2 == 1 && RoutesAt(c, outs[j]).Ok?
  }

  lemma NoneYet(c: Context, outs: seq<int>)
    requires forall o :: o in outs ==> o % 2 == 1
    ensures AcceptedUpTo(c, outs, 0, [])
  {
  }

  lemma OneMorePair(c: Context, outs: seq<int>, i: nat, added: seq<Route>, more: seq<Route>)
    requires i < |outs| && AcceptedUpTo(c, outs, i, added) && outs[i] % 2 == 1 && RoutesAt(c, outs[i]) == Ok(more)
    ensures AcceptedUpTo(c, outs, i + 1, added + more)
  {
    hide RoutesAt, AcceptedAt;
    assert outs[i] in outs;
    forall b | b in more ensures AcceptedAt(c, outs[i], b) {
      DiagonalAccepted(c, outs[i], b);
    }
  }

  lemma RefusedHere(c: Context, outs: seq<int>, i: nat, added: seq<Route>, error: BaseError)
    requires i < |outs| && AcceptedUpTo(c, outs, i, added) && outs[i] % 2 == 1 && RoutesAt(c, outs[i]) == Err(error)
    ensures FirstRefusal(c, outs, error)
  {
    assert RefusedFirstAt(c, outs, i, error);
  }

  lemma EveryPair(routes: seq<Route>, settings: seq<Setting>, mirrors: seq<Mirror>, device: Device, added: seq<Route>)
    requires AllWellFormed(routes) && AllParsed(mirrors)
    requires AcceptedUpTo(ContextOf(routes, settings, mirrors, device), OddPairs(device.outputs), |OddPairs(device.outputs)|, added)
    ensures AcceptedBase(routes, settings, mirrors, device, added)
    ensures AllAccepted(ContextOf(routes, settings, mirrors, device), OddPairs(device.outputs), added)
  {
  }

  /** Every accepted base route belongs to an accepted output pair. */
  lemma {:induction false} AddedAt(c: Context, outs: seq<int>, n: nat, b: Route)
    requires n <= |outs| && forall o :: o in outs ==> o % 2 == 1
    requires RoutesUpTo(c, outs, n).Ok?
    ensures b in RoutesUpTo(c, outs, n).value <==>
      exists k :: 0 <= k < n && outs[k] % 2 == 1 && RoutesAt(c, outs[k]).Ok? && b in RoutesAt(c, outs[k]).value
  {
    hide RoutesAt;
    if n != 0 {
      AddedAt(c, outs, n - 1, b);
      assert outs[n - 1] in outs;
    }
  }

  // ---- what one accepted pair guarantees ----

  /** The link a base route wants of a pair: the declared one, else linked, else unlinked beside mono playback. */
  function Wanted(links: Links, family: Family, left: int): bool {
    if family == Playback then Declared(links, Playback, left) != Some(false)
    else Declared(links, Playback, left) != Some(false) && Declared(links, Output, left) != Some(false)
  }

  /** An accepted base route: on its own pair, wanting what is declared, and free of every mirror problem. */
  ghost predicate AcceptedAt(c: Context, left: int, b: Route) {
    && WellFormed(b) && b.kind == Playback && b.base
    && (b.output == [left, left + 1] || b.output == [left] || b.output == [left + 1])
    && b.source == b.output
    && LinkRequirements(b) == [Link(Playback, left, Wanted(c.links, Playback, left)), Link(Output, left, Wanted(c.links, Output, left))]
    && (Declared(c.links, Output, left).Some? ==> Declared(c.links, Output, left).value == Wanted(c.links, Output, left))
    && left !in c.mirrored && left + 1 !in c.mirrored
    && (|b.output| == 2 ==> left !in c.alone && left + 1 !in c.alone)
    && (|b.output| == 1 ==> left !in c.paired)
    && (forall o, p :: o in b.output && p in b.source && (|b.output| == 2 || o == p) ==> (o, p) !in c.taken)
  }

  lemma DiagonalAccepted(c: Context, left: int, b: Route)
    requires left % 2 == 1 && RoutesAt(c, left).Ok? && b in RoutesAt(c, left).value
    ensures AcceptedAt(c, left, b)
  {
    hide SetAlike, Owned;
    var diagonal := RoutesAt(c, left).value;
    assert MirrorProblem(c, left, diagonal).None?;
    WantedAsDeclared(c.links, left);
  }

  /** Unless mono playback meets a linked output, the output is wanted as declared. */
  lemma WantedAsDeclared(links: Links, left: int)
    requires !(Declared(links, Playback, left) == Some(false) && Declared(links, Output, left) == Some(true))
    ensures Declared(links, Output, left).Some? ==> Declared(links, Output, left).value == Wanted(links, Output, left)
  {
    if (Output, left) in links && links[(Output, left)] {
      assert Declared(links, Output, left) == Some(true);
    }
  }

  /** A pair the base links has been checked: it and, for an output, the mirror target in the table. */
  lemma OwnedIsAlike(c: Context, left: int, b: Route, l: Link)
    requires left % 2 == 1 && RoutesAt(c, left).Ok? && b in RoutesAt(c, left).value
    requires WellFormed(b) && l in LinkRequirements(b) && l.linked && (l.family, l.channel) !in c.links
    ensures SetAlike(c.settings, l.family, l.channel)
    ensures l == Link(Output, left, true) && left in c.targets ==> SetAlike(c.settings, Output, c.targets[left])
  {
    hide SetAlike, LinkRequirements, Diagonal, MirrorProblem;
    var diagonal := RoutesAt(c, left).value;
    DiagonalIsWellFormed(left, Declared(c.links, Playback, left), Declared(c.links, Output, left), c.taken);
    var p: (Family, int) := (l.family, l.channel);
    assert p in Owned(c, left, diagonal);
    assert SetAlike(c.settings, p.0, p.1);
    if l == Link(Output, left, true) && left in c.targets {
      var t: (Family, int) := (Output, c.targets[left]);
      assert t in Owned(c, left, diagonal);
      assert SetAlike(c.settings, t.0, t.1);
    }
  }

  lemma RoutesAtAccepted(c: Context, left: int, b: Route)
    requires left % 2 == 1 && RoutesAt(c, left).Ok? && b in RoutesAt(c, left).value
    ensures AcceptedAt(c, left, b)
    ensures Wanted(c.links, Playback, left) && (Playback, left) !in c.links ==> SetAlike(c.settings, Playback, left)
    ensures Wanted(c.links, Output, left) && (Output, left) !in c.links ==> SetAlike(c.settings, Output, left)
    ensures Wanted(c.links, Output, left) && (Output, left) !in c.links && left in c.targets
        ==> SetAlike(c.settings, Output, c.targets[left])
  {
    hide SetAlike, RoutesAt, Wanted;
    DiagonalAccepted(c, left, b);
    var p, o := Link(Playback, left, Wanted(c.links, Playback, left)), Link(Output, left, Wanted(c.links, Output, left));
    assert [p, o][0] == p && [p, o][1] == o;
    assert p in LinkRequirements(b) && o in LinkRequirements(b);
    if p.linked && (Playback, left) !in c.links {
      OwnedIsAlike(c, left, b, p);
    }
    if o.linked && (Output, left) !in c.links {
      OwnedIsAlike(c, left, b, o);
    }
  }

  // ---- what one pair gets, and when it is refused ----

  /** The computer plays these channels on themselves as they are. */
  predicate Unity(b: Route, channels: seq<int>, stereo: bool) {
    && b.kind == Playback && b.base && b.source == b.output == channels && b.stereo == stereo
    && b.level == 0.0 && b.pan == 0 && b.volume.None? && b.mirrorOf == []
  }

  /** Mirrored onto from somewhere else on both channels, or never played, a pair is left alone. */
  predicate Plays(c: Context, left: int) {
    left in c.playback && !(left in c.mirrored && left + 1 in c.mirrored)
  }

  predicate MonoPlayback(c: Context, left: int) {
    (Playback, left) in c.links && !c.links[(Playback, left)]
  }

  predicate Unlinked(c: Context, left: int) {
    (Output, left) in c.links && !c.links[(Output, left)]
  }

  /** No route of the desk writes one of the four cells. */
  predicate BlockIsFree(c: Context, left: int) {
    (left, left) !in c.taken && (left, left + 1) !in c.taken && (left + 1, left) !in c.taken && (left + 1, left + 1) !in c.taken
  }

  /** A free block is played as one pair, or beside mono playback each free channel by itself. */
  predicate Wants(c: Context, left: int, b: Route) {
    if MonoPlayback(c, left) then
      (Unity(b, [left], true) && (left, left) !in c.taken) || (Unity(b, [left + 1], true) && (left + 1, left + 1) !in c.taken)
    else Unity(b, [left, left + 1], !Unlinked(c, left)) && BlockIsFree(c, left)
  }

  predicate WantsSome(c: Context, left: int) {
    if MonoPlayback(c, left) then (left, left) !in c.taken || (left + 1, left + 1) !in c.taken else BlockIsFree(c, left)
  }

  predicate Clashes(c: Context, left: int) {
    MonoPlayback(c, left) && (Output, left) in c.links && c.links[(Output, left)]
  }

  /** A mirror stands in the way: onto one channel only, of one channel of a pair, or of a pair played in mono. */
  predicate HalfMirrored(c: Context, left: int) { left in c.mirrored || left + 1 in c.mirrored }

  predicate CopiedAlone(c: Context, left: int) { !MonoPlayback(c, left) && (left in c.alone || left + 1 in c.alone) }

  predicate CopiedAsPair(c: Context, left: int) { MonoPlayback(c, left) && left in c.paired }

  /** Linking what the routes need linked would merge settings the desk keeps apart. */
  predicate Merges(c: Context, left: int) {
    && !MonoPlayback(c, left)
    && (|| ((Playback, left) !in c.links && !SetAlike(c.settings, Playback, left))
        || ((Output, left) !in c.links && !SetAlike(c.settings, Output, left))
        || ((Output, left) !in c.links && left in c.targets && !SetAlike(c.settings, Output, c.targets[left])))
  }

  /** The first refusal that applies to a pair that is played. */
  lemma RefusedExactly(c: Context, left: int)
    requires left % 2 == 1
    ensures var r, asks := RoutesAt(c, left), Plays(c, left) && !Clashes(c, left) && WantsSome(c, left);
      && (r == Err(MonoPlaybackOnLinkedOutput) <==> Plays(c, left) && Clashes(c, left))
      && (r == Err(HalfMirrorTarget) <==> asks && HalfMirrored(c, left))
      && (r == Err(MirroredAlone) <==> asks && !HalfMirrored(c, left) && CopiedAlone(c, left))
      && (r == Err(MonoOnMirroredPair) <==> asks && !HalfMirrored(c, left) && CopiedAsPair(c, left))
      && (r == Err(SetApart) <==>
            asks && !HalfMirrored(c, left) && !CopiedAlone(c, left) && !CopiedAsPair(c, left) && Merges(c, left))
  {
    hide SetAlike, Owned, Merges, Diagonal, MirrorProblem, LinkRequirements;
    DiagonalIs(c, left);
    if !Clashes(c, left) {
      ProblemIs(c, left);
      if MonoPlayback(c, left) {
        MonoOwnsNothing(c, left);
      } else if BlockIsFree(c, left) {
        MergesExactly(c, left);
      } else {
        EmptyOwnsNothing(c, left);
      }
    }
  }

  function DiagonalOf(c: Context, left: int): Result<seq<Route>, BaseError> {
    Diagonal(left, Declared(c.links, Playback, left), Declared(c.links, Output, left), c.taken)
  }

  lemma DiagonalIs(c: Context, left: int)
    ensures Clashes(c, left) ==> DiagonalOf(c, left) == Err(MonoPlaybackOnLinkedOutput)
    ensures !Clashes(c, left) ==> DiagonalOf(c, left).Ok? && (DiagonalOf(c, left).value != [] <==> WantsSome(c, left))
    ensures !MonoPlayback(c, left) && BlockIsFree(c, left) ==>
      DiagonalOf(c, left) == Ok([BaseRoute([left, left + 1], [left, left + 1], !Unlinked(c, left))])
    ensures !MonoPlayback(c, left) && !BlockIsFree(c, left) ==> DiagonalOf(c, left) == Ok([])
  {
  }

  lemma ProblemIs(c: Context, left: int)
    requires !Clashes(c, left)
    ensures DiagonalOf(c, left).Ok?
    ensures var problem := MirrorProblem(c, left, DiagonalOf(c, left).value);
      if !WantsSome(c, left) then problem == None
      else if HalfMirrored(c, left) then problem == Some(HalfMirrorTarget)
      else if CopiedAlone(c, left) then problem == Some(MirroredAlone)
      else if CopiedAsPair(c, left) then problem == Some(MonoOnMirroredPair)
      else problem == None
  {
    var diagonal := DiagonalOf(c, left).value;
    if WantsSome(c, left) {
      assert diagonal[0] in diagonal;
      assert |diagonal[0].output| == if MonoPlayback(c, left) then 1 else 2;
      assert forall r :: r in diagonal ==> |r.output| == if MonoPlayback(c, left) then 1 else 2;
    }
  }

  lemma EmptyOwnsNothing(c: Context, left: int)
    requires left % 2 == 1
    ensures Owned(c, left, []) == {}
  {
    assert (Output, left) !in Owned(c, left, []);
  }

  /** A pair that is not refused gets exactly the routes there is room for, left before right. */
  lemma AddedExactly(c: Context, left: int)
    requires left % 2 == 1 && RoutesAt(c, left).Ok?
    ensures var added := RoutesAt(c, left).value;
      && (forall b :: b in added ==> Plays(c, left) && Wants(c, left, b))
      && |added| <= 2 && (|added| == 2 ==> added[0].output == [left] && added[1].output == [left + 1])
      && (forall b :: Plays(c, left) && Wants(c, left, b) ==> exists a :: a in added && Unity(a, b.output, b.stereo))
  {
    hide *;
    AddedIsDiagonal(c, left);
    forall b | b in RoutesAt(c, left).value ensures Plays(c, left) && Wants(c, left, b) {
      AddedIsWanted(c, left, b);
    }
    forall b | Plays(c, left) && Wants(c, left, b) ensures exists a :: a in RoutesAt(c, left).value && Unity(a, b.output, b.stereo) {
      WantedIsThere(c, left, b);
    }
  }

  lemma AddedIsDiagonal(c: Context, left: int)
    requires left % 2 == 1 && RoutesAt(c, left).Ok?
    ensures Plays(c, left) ==> DiagonalOf(c, left) == RoutesAt(c, left)
    ensures !Plays(c, left) ==> RoutesAt(c, left).value == []
    ensures var added := RoutesAt(c, left).value;
      |added| <= 2 && (|added| == 2 ==> added[0].output == [left] && added[1].output == [left + 1])
  {
    hide SetAlike, Owned, MirrorProblem;
  }

  lemma AddedIsWanted(c: Context, left: int, b: Route)
    requires left % 2 == 1 && RoutesAt(c, left).Ok? && b in RoutesAt(c, left).value
    ensures Plays(c, left) && Wants(c, left, b)
  {
    AddedIsDiagonal(c, left);
    hide RoutesAt;
  }

  lemma WantedIsThere(c: Context, left: int, b: Route)
    requires left % 2 == 1 && RoutesAt(c, left).Ok? && Plays(c, left) && Wants(c, left, b)
    ensures exists a :: a in RoutesAt(c, left).value && Unity(a, b.output, b.stereo)
  {
    AddedIsDiagonal(c, left);
    hide RoutesAt;
    var r := RoutesAt(c, left).value;
    var a := BaseRoute(b.output, b.source, b.stereo);
    assert Unity(a, b.output, b.stereo);
    if MonoPlayback(c, left) && b.output == [left + 1] {
      assert r[|r| - 1] == a;
    } else {
      assert r[0] == a;
    }
  }

  lemma MergesExactly(c: Context, left: int)
    requires left % 2 == 1 && !MonoPlayback(c, left)
    ensures var diagonal := [BaseRoute([left, left + 1], [left, left + 1], !Unlinked(c, left))];
      AllWellFormed(diagonal) && (Merges(c, left) <==> exists p :: p in Owned(c, left, diagonal) && !SetAlike(c.settings, p.0, p.1))
  {
    hide SetAlike;
    var b := BaseRoute([left, left + 1], [left, left + 1], !Unlinked(c, left));
    var own := Owned(c, left, [b]);
    assert b in [b];
    assert LinkRequirements(b) == [Link(Playback, left, true), Link(Output, left, !Unlinked(c, left))];
    assert Link(Playback, left, true) in LinkRequirements(b) && Link(Output, left, !Unlinked(c, left)) in LinkRequirements(b);
    var played: (Family, int), out: (Family, int) := (Playback, left), (Output, left);
    assert played in own <==> played !in c.links;
    assert out in own <==> out !in c.links;
    if Merges(c, left) {
      if out !in c.links && left in c.targets {
        var t: (Family, int) := (Output, c.targets[left]);
        assert t in own;
      }
    }
  }

  lemma MonoOwnsNothing(c: Context, left: int)
    requires left % 2 == 1 && MonoPlayback(c, left) && !Clashes(c, left)
    ensures Diagonal(left, Declared(c.links, Playback, left), Declared(c.links, Output, left), c.taken).Ok?
    ensures var diagonal := Diagonal(left, Declared(c.links, Playback, left), Declared(c.links, Output, left), c.taken).value;
      AllWellFormed(diagonal) && Owned(c, left, diagonal) == {} && !Merges(c, left)
  {
    var diagonal := Diagonal(left, Declared(c.links, Playback, left), Declared(c.links, Output, left), c.taken).value;
    DiagonalIsWellFormed(left, Declared(c.links, Playback, left), Declared(c.links, Output, left), c.taken);
    assert forall b, l :: b in diagonal && l in LinkRequirements(b) ==> !l.linked;
    assert (Output, left) !in Owned(c, left, diagonal);
  }

  // ---- the whole desk stays one desk ----

  /** The routes of a desk with its base added, as parsing hands them to the mirrors. */
  ghost predicate AcceptedBase(routes: seq<Route>, settings: seq<Setting>, mirrors: seq<Mirror>, device: Device, added: seq<Route>)
    requires AllWellFormed(routes) && AllParsed(mirrors)
  {
    var outs := OddPairs(device.outputs);
    RoutesUpTo(ContextOf(routes, settings, mirrors, device), outs, |outs|) == Ok(added)
  }

  lemma AddedPair(routes: seq<Route>, settings: seq<Setting>, mirrors: seq<Mirror>, device: Device, added: seq<Route>, b: Route)
      returns (left: int)
    requires AllWellFormed(routes) && AllParsed(mirrors)
    requires AcceptedBase(routes, settings, mirrors, device, added) && b in added
    ensures left % 2 == 1 && AcceptedAt(ContextOf(routes, settings, mirrors, device), left, b)
    ensures RoutesAt(ContextOf(routes, settings, mirrors, device), left).Ok?
      && b in RoutesAt(ContextOf(routes, settings, mirrors, device), left).value
  {
    hide RoutesAt, ContextOf, AcceptedAt;
    var c := ContextOf(routes, settings, mirrors, device);
    var outs := OddPairs(device.outputs);
    AddedAt(c, outs, |outs|, b);
    var k :| 0 <= k < |outs| && outs[k] % 2 == 1 && RoutesAt(c, outs[k]).Ok? && b in RoutesAt(c, outs[k]).value;
    left := outs[k];
    RoutesAtAccepted(c, left, b);
  }

  lemma AddedIsWellFormed(routes: seq<Route>, settings: seq<Setting>, mirrors: seq<Mirror>, device: Device, added: seq<Route>)
    requires AllWellFormed(routes) && AllParsed(mirrors)
    requires AcceptedBase(routes, settings, mirrors, device, added)
    ensures AllWellFormed(added) && AllWellFormed(routes + added)
  {
    hide AcceptedBase, ContextOf, RoutesAt;
    forall b | b in added ensures WellFormed(b) {
      var left := AddedPair(routes, settings, mirrors, device, added, b);
    }
  }

  /** Base routes never stop the mirrors: what could be expanded before can be expanded with them. */
  lemma BaseKeepsMirrors(routes: seq<Route>, settings: seq<Setting>, mirrors: seq<Mirror>, device: Device, added: seq<Route>)
    requires AllWellFormed(routes) && AllParsed(mirrors) && Expandable(routes, mirrors)
    requires AcceptedBase(routes, settings, mirrors, device, added)
    ensures Expandable(routes + added, mirrors)
  {
    hide AcceptedBase, RoutesAt, WellFormed, ParsedMirror, Wanted;
    forall b | b in added ensures CoversSources(b, mirrors) && AvoidsTargets(b, mirrors) {
      var left := AddedPair(routes, settings, mirrors, device, added, b);
      AcceptedFitsMirrors(routes, settings, mirrors, device, left, b);
    }
  }

  lemma AcceptedFitsMirrors(routes: seq<Route>, settings: seq<Setting>, mirrors: seq<Mirror>, device: Device, left: int, b: Route)
    requires AllWellFormed(routes) && AllParsed(mirrors)
    requires left % 2 == 1 && AcceptedAt(ContextOf(routes, settings, mirrors, device), left, b)
    ensures CoversSources(b, mirrors) && AvoidsTargets(b, mirrors)
  {
    var c := ContextOf(routes, settings, mirrors, device);
    forall ch | ch in b.output ensures !IsTarget(mirrors, ch) {
      assert ch == left || ch == left + 1;
    }
    forall m | m in mirrors && Shares(b.output, m.source) ensures b.output == m.source {
      assert ParsedMirror(m);
      var ch :| ch in b.output && ch in m.source;
      if |m.source| == 1 {
        assert m.source[0] in c.alone;
      } else {
        assert m.source[0] in c.paired;
      }
    }
  }

  lemma RequiresOfSum(a: seq<Route>, b: seq<Route>, l: Link)
    requires AllWellFormed(a) && AllWellFormed(b) && AllWellFormed(a + b)
    ensures Requires(a + b, l) <==> Requires(a, l) || Requires(b, l)
  {
    if Requires(a + b, l) {
      var r :| r in a + b && l in LinkRequirements(r);
      assert r in a || r in b;
    }
    if Requires(a, l) {
      var r :| r in a && l in LinkRequirements(r);
      assert r in a + b;
    }
    if Requires(b, l) {
      var r :| r in b && l in LinkRequirements(r);
      assert r in a + b;
    }
  }

  /** A base route requires what the context wants of its pair. */
  lemma AddedRequires(routes: seq<Route>, settings: seq<Setting>, mirrors: seq<Mirror>, device: Device, added: seq<Route>, l: Link)
    requires AllWellFormed(routes) && AllParsed(mirrors) && AllWellFormed(added)
    requires AcceptedBase(routes, settings, mirrors, device, added) && Requires(added, l)
    ensures l.family != Input && l.linked == Wanted(LinksOf(routes, |routes|), l.family, l.channel)
    ensures (l.family, l.channel) in LinksOf(routes, |routes|) ==> LinksOf(routes, |routes|)[(l.family, l.channel)] == l.linked
    ensures l.linked && (l.family, l.channel) !in LinksOf(routes, |routes|) ==> SetAlike(settings, l.family, l.channel)
  {
    hide AcceptedBase, RoutesAt, WellFormed, LinksOf, LinkRequirements, SetAlike;
    var b :| b in added && l in LinkRequirements(b);
    var left := AddedPair(routes, settings, mirrors, device, added, b);
    RoutesAtAccepted(ContextOf(routes, settings, mirrors, device), left, b);
  }

  /** The declared routes and the base's agree on every pair. */
  lemma BaseKeepsLinkAgreement(routes: seq<Route>, settings: seq<Setting>, mirrors: seq<Mirror>, device: Device, added: seq<Route>)
    requires AllWellFormed(routes) && AllParsed(mirrors) && LinkConsistent(routes)
    requires AcceptedBase(routes, settings, mirrors, device, added)
    ensures AllWellFormed(routes + added) && LinkConsistent(routes + added)
  {
    hide AcceptedBase, LinksOf, Requires, WellFormed;
    AddedIsWellFormed(routes, settings, mirrors, device, added);
    forall f: Family, c: int
      ensures !(Requires(routes + added, Link(f, c, true)) && Requires(routes + added, Link(f, c, false)))
    {
      RequiresOfSum(routes, added, Link(f, c, true));
      RequiresOfSum(routes, added, Link(f, c, false));
      if Requires(added, Link(f, c, true)) {
        AddedRequires(routes, settings, mirrors, device, added, Link(f, c, true));
      }
      if Requires(added, Link(f, c, false)) {
        AddedRequires(routes, settings, mirrors, device, added, Link(f, c, false));
      }
      RequiredIsDeclared(routes, f, c, true);
      RequiredIsDeclared(routes, f, c, false);
    }
  }

  lemma RequiredIsDeclared(routes: seq<Route>, f: Family, c: int, linked: bool)
    requires AllWellFormed(routes) && LinkConsistent(routes)
    ensures Requires(routes, Link(f, c, linked)) ==>
      (f, c) in LinksOf(routes, |routes|) && LinksOf(routes, |routes|)[(f, c)] == linked
  {
    hide LinksOf, Requires;
    if Requires(routes, Link(f, c, linked)) {
      DeclaredAsRequired(routes, f, c, linked);
    }
  }

  // ---- expansion keeps link agreement ----

  /** What a route of an expansion requires of output pairs: as declared, or as its original does of the source pair. */
  lemma ExpandedRequirement(routes: seq<Route>, mirrors: seq<Mirror>, l: Link)
    requires AllWellFormed(routes) && AllParsed(mirrors)
    requires AllWellFormed(Expansion(routes, mirrors, |mirrors|)) && Requires(Expansion(routes, mirrors, |mirrors|), l)
    ensures Requires(routes, l) || (l.family == Output && CopiedRequirement(routes, mirrors, l))
  {
    hide LinkRequirements, WellFormed, Expansion;
    var x :| x in Expansion(routes, mirrors, |mirrors|) && l in LinkRequirements(x);
    ExpansionMeaning(routes, mirrors, |mirrors|, x);
    assert mirrors[..|mirrors|] == mirrors;
    if x !in routes {
      var m, r :| m in mirrors && r in routes && r.output == m.source && x == Copy(r, m);
      CopyIsWellFormed(r, m);
      RequirementFamilies(x);
      if l == LinkRequirements(x)[0] {
        assert LinkRequirements(r)[0] in LinkRequirements(r);
      } else {
        assert l == LinkRequirements(x)[1];
        assert CopiedBy(routes, m, r, l);
      }
    }
  }

  lemma RequirementFamilies(r: Route)
    requires WellFormed(r)
    ensures LinkRequirements(r)[0].family == r.kind != Output && LinkRequirements(r)[1].family == Output
    ensures LinkRequirements(r)[1].channel == Odd(r.output[0])
    ensures LinkRequirements(r)[1].linked ==> |r.output| == 2
  {
  }

  ghost predicate CopiedBy(routes: seq<Route>, m: Mirror, r: Route, l: Link)
    requires AllWellFormed(routes)
  {
    && r in routes && r.output == m.source && m.target != []
    && l.family == Output && l.channel == Odd(m.target[0]) && l.linked == LinkRequirements(r)[1].linked
  }

  ghost predicate CopiedRequirement(routes: seq<Route>, mirrors: seq<Mirror>, l: Link)
    requires AllWellFormed(routes)
  {
    exists m, r :: m in mirrors && CopiedBy(routes, m, r, l)
  }

  /** Mirroring a consistent desk gives a consistent desk. */
  lemma ExpansionKeepsLinkAgreement(routes: seq<Route>, mirrors: seq<Mirror>)
    requires AllWellFormed(routes) && AllParsed(mirrors) && LinkConsistent(routes) && Expandable(routes, mirrors)
    ensures AllWellFormed(Expansion(routes, mirrors, |mirrors|)) && LinkConsistent(Expansion(routes, mirrors, |mirrors|))
  {
    hide Requires, WellFormed, Expansion, Expandable, ParsedMirror, CopiedRequirement;
    ExpansionIsWellFormed(routes, mirrors);
    var x := Expansion(routes, mirrors, |mirrors|);
    forall f: Family, c: int ensures !(Requires(x, Link(f, c, true)) && Requires(x, Link(f, c, false))) {
      if Requires(x, Link(f, c, true)) && Requires(x, Link(f, c, false)) {
        ExpandedRequirement(routes, mirrors, Link(f, c, true));
        ExpandedRequirement(routes, mirrors, Link(f, c, false));
        NoMixedRequirement(routes, mirrors, f, c);
      }
    }
  }

  /** A pair that some copy links is used by nothing but that mirror's copies. */
  lemma LinkedCopyOwnsItsPair(routes: seq<Route>, mirrors: seq<Mirror>, m: Mirror, r: Route, c: int)
    requires AllWellFormed(routes) && AllParsed(mirrors) && Expandable(routes, mirrors)
    requires m in mirrors && CopiedBy(routes, m, r, Link(Output, c, true))
    ensures IsPair(m.target) && IsPair(m.source) && c == m.target[0]
    ensures forall b: bool :: !Requires(routes, Link(Output, c, b))
    ensures forall n, q, b: bool :: n in mirrors && CopiedBy(routes, n, q, Link(Output, c, b)) ==> n == m
  {
    assert ParsedMirror(m);
    RequirementFamilies(r);
    assert IsTarget(mirrors, c) && IsTarget(mirrors, c + 1);
    forall b: bool ensures !Requires(routes, Link(Output, c, b)) {
      forall y | y in routes ensures Link(Output, c, b) !in LinkRequirements(y) {
        RequirementFamilies(y);
        assert AvoidsTargets(y, mirrors);
        assert y.output[0] in y.output;
      }
    }
    forall n, q, b: bool | n in mirrors && CopiedBy(routes, n, q, Link(Output, c, b)) ensures n == m {
      assert ParsedMirror(n);
      assert n.target[0] in n.target && n.target[0] in m.target;
      SameTargetSameMirror(mirrors, m, n, n.target[0]);
    }
  }

  lemma SameTargetSameMirror(mirrors: seq<Mirror>, m: Mirror, n: Mirror, ch: int)
    requires DistinctTargets(mirrors) && m in mirrors && n in mirrors
    requires ch in m.target && ch in n.target
    ensures m == n
  {
    var i :| 0 <= i < |mirrors| && mirrors[i] == m;
    var j :| 0 <= j < |mirrors| && mirrors[j] == n;
    assert Shares(m.target, n.target) && Shares(n.target, m.target);
  }

  lemma NoMixedRequirement(routes: seq<Route>, mirrors: seq<Mirror>, f: Family, c: int)
    requires AllWellFormed(routes) && AllParsed(mirrors) && LinkConsistent(routes) && Expandable(routes, mirrors)
    requires Requires(routes, Link(f, c, true)) || (f == Output && CopiedRequirement(routes, mirrors, Link(f, c, true)))
    ensures !Requires(routes, Link(f, c, false))
    ensures !(f == Output && CopiedRequirement(routes, mirrors, Link(f, c, false)))
  {
    hide Expandable, ParsedMirror, WellFormed, Requires, LinkRequirements;
    if f == Output && CopiedRequirement(routes, mirrors, Link(f, c, true)) {
      var m, r :| m in mirrors && CopiedBy(routes, m, r, Link(f, c, true));
      LinkedCopyOwnsItsPair(routes, mirrors, m, r, c);
      forall n, q | n in mirrors ensures !CopiedBy(routes, n, q, Link(f, c, false)) {
        if CopiedBy(routes, n, q, Link(f, c, false)) {
          OriginalsAgree(routes, r, q);
        }
      }
    } else {
      forall n, q | f == Output && n in mirrors ensures !CopiedBy(routes, n, q, Link(f, c, false)) {
        if CopiedBy(routes, n, q, Link(f, c, false)) {
          DeclaredLinkAvoidsTargets(routes, mirrors, n, q, c);
        }
      }
    }
  }

  /** Routes on one pair agree on its link. */
  lemma OriginalsAgree(routes: seq<Route>, r: Route, q: Route)
    requires AllWellFormed(routes) && LinkConsistent(routes) && r in routes && q in routes && r.output == q.output
    ensures LinkRequirements(r)[1].linked == LinkRequirements(q)[1].linked
  {
    RequirementFamilies(r);
    RequirementFamilies(q);
    var a, b := LinkRequirements(r)[1], LinkRequirements(q)[1];
    assert a in LinkRequirements(r) && b in LinkRequirements(q);
    assert Requires(routes, Link(Output, a.channel, a.linked)) && Requires(routes, Link(Output, a.channel, b.linked)) by {
      assert a == Link(Output, a.channel, a.linked) && b == Link(Output, a.channel, b.linked);
    }
  }

  /** A declared linked pair holds no mirror target, so no copy wants it unlinked. */
  lemma DeclaredLinkAvoidsTargets(routes: seq<Route>, mirrors: seq<Mirror>, n: Mirror, q: Route, c: int)
    requires AllWellFormed(routes) && AllParsed(mirrors) && Expandable(routes, mirrors)
    requires n in mirrors && CopiedBy(routes, n, q, Link(Output, c, false))
    ensures !Requires(routes, Link(Output, c, true))
  {
    forall y | y in routes ensures Link(Output, c, true) !in LinkRequirements(y) {
      RequirementFamilies(y);
      assert AvoidsTargets(y, mirrors);
      assert ParsedMirror(n);
      assert IsTarget(mirrors, n.target[0]);
      assert y.output[0] in y.output;
      if |y.output| == 2 {
        assert y.output[1] in y.output;
      }
    }
  }

  /**
   * Base routes and mirrors together: accepted routes with an accepted base can be mirrored,
   * the result still agrees on every pair link, and every mirror target carries its source's
   * routes and nothing else.
   */
  lemma DeskWide(routes: seq<Route>, settings: seq<Setting>, mirrors: seq<Mirror>, device: Device, added: seq<Route>)
    requires AllWellFormed(routes) && AllParsed(mirrors) && LinkConsistent(routes) && Expandable(routes, mirrors)
    requires AcceptedBase(routes, settings, mirrors, device, added)
    ensures AllWellFormed(routes + added) && Expandable(routes + added, mirrors)
    ensures AllWellFormed(Expansion(routes + added, mirrors, |mirrors|))
    ensures LinkConsistent(Expansion(routes + added, mirrors, |mirrors|))
    ensures forall m, x :: m in mirrors ==>
      ((x in Expansion(routes + added, mirrors, |mirrors|) && Shares(x.output, m.target)) <==>
       exists r :: r in routes + added && r.output == m.source && x == Copy(r, m))
  {
    hide *;
    BaseKeepsLinkAgreement(routes, settings, mirrors, device, added);
    BaseKeepsMirrors(routes, settings, mirrors, device, added);
    ExpansionKeepsLinkAgreement(routes + added, mirrors);
    forall m, x | m in mirrors
      ensures (x in Expansion(routes + added, mirrors, |mirrors|) && Shares(x.output, m.target)) <==>
        exists r :: r in routes + added && r.output == m.source && x == Copy(r, m)
    {
      MirrorCarriesItsSource(routes + added, mirrors, m, x);
    }
  }
}
