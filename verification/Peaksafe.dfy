/** An explicit switch between quieted outputs, against the plain one. */
module Peaksafe {
  import opened Wrappers

  datatype Kind = Input | Playback

  datatype Path =
    | Volume(output: nat)
    | OutputSetting(output: nat, name: string)
    | Mix(output: nat, kind: Kind, channel: nat)
    | Setting(kind: Kind, channel: nat, name: string)
    | Other(name: string)

  /** A register's value; as a volume it may be one that means nothing. */
  datatype Value = Level(db: real) | Silence | Junk | Word(text: string)

  datatype Write = Write(path: Path, value: Value)

  type Registers = map<Path, Value>

  const LEVEL_MIN: real := -65.0

  // What a switch changes

  /** The odd channel an output's pair answers on. */
  function Left(output: int): int {
    output - (output - 1) % 2
  }

  /** One channel, or the odd and the even one of a pair. */
  predicate SamePair(a: int, b: int) {
    a == b || (a % 2 == 1 && b == a + 1) || (b % 2 == 1 && a == b + 1)
  }

  lemma LeftIsOfPair(a: int, b: int)
    ensures Left(a) == Left(b) <==> SamePair(a, b)
  {
  }

  /** A setting of an input or playback channel, other than its link, is heard wherever it is routed. */
  predicate Everywhere(p: Path) {
    p.Setting? && p.name != "stereo"
  }

  predicate OnOutput(p: Path) {
    p.Volume? || p.OutputSetting? || p.Mix?
  }

  /** A plan is heard at an output: it writes it or its pair partner, or a channel setting that is heard everywhere. */
  ghost predicate ChangedBy(paths: seq<Path>, o: nat) {
    (exists p :: p in paths && Everywhere(p)) || (exists p :: p in paths && OnOutput(p) && Left(p.output) == Left(o))
  }

  lemma ChangedExactly(paths: seq<Path>, o: nat)
    ensures ChangedBy(paths, o) <==>
      || (exists p :: p in paths && p.Setting? && p.name != "stereo")
      || (exists p :: p in paths && (p.Volume? || p.OutputSetting? || p.Mix?) && SamePair(p.output, o))
  {
    forall p | p in paths && OnOutput(p) ensures Left(p.output) == Left(o) <==> SamePair(p.output, o) {
      LeftIsOfPair(p.output, o);
    }
  }

  /** The outputs a plan changes, with their pair partners. */
  method ChangedOutputs(paths: seq<Path>, outputs: seq<nat>) returns (changed: seq<nat>)
    requires forall j, k :: 0 <= j < k < |outputs| ==> outputs[j] < outputs[k]
    ensures forall j, k :: 0 <= j < k < |changed| ==> changed[j] < changed[k]
    ensures forall o :: o in changed <==> o in outputs && ChangedBy(paths, o)
  {
    var touched: set<int> := {};
    for i := 0 to |paths|
      invariant forall p :: p in paths[..i] ==> !Everywhere(p)
      invariant forall o: int :: o in touched <==> exists p :: p in paths[..i] && OnOutput(p) && Left(p.output) == Left(o)
    {
      var p := paths[i];
      assert paths[..i + 1] == paths[..i] + [p];
      if Everywhere(p) {
        assert p in paths;
        return outputs;
      }
      if OnOutput(p) {
        PairOf(p.output);
        touched := touched + {Left(p.output), Left(p.output) + 1};
      }
    }
    assert paths[..|paths|] == paths;
    changed := Among(outputs, touched);
  }

  /** Those of the outputs that are in the set, in their order. */
  method Among(outputs: seq<nat>, chosen: set<int>) returns (kept: seq<nat>)
    requires forall j, k :: 0 <= j < k < |outputs| ==> outputs[j] < outputs[k]
    ensures forall j, k :: 0 <= j < k < |kept| ==> kept[j] < kept[k]
    ensures forall o :: o in kept <==> o in outputs && o in chosen
  {
    kept := [];
    for i := 0 to |outputs|
      invariant forall o :: o in kept <==> o in outputs[..i] && o in chosen
      invariant forall j, k :: 0 <= j < k < |kept| ==> kept[j] < kept[k]
    {
      assert outputs[..i + 1] == outputs[..i] + [outputs[i]];
      if outputs[i] in chosen {
        forall j | 0 <= j < |kept| ensures kept[j] < outputs[i] {
          assert kept[j] in kept;
          var k :| 0 <= k < i && outputs[k] == kept[j];
        }
        kept := kept + [outputs[i]];
      }
    }
    assert outputs[..|outputs|] == outputs;
  }

  /** An output and its pair partner are the ones that answer on the same odd channel. */
  lemma PairOf(output: int)
    ensures forall o: int :: Left(o) == Left(output) <==> o in {Left(output), Left(output) + 1}
  {
  }

  // Writing

  function Apply(registers: Registers, writes: seq<Write>): Registers {
    if writes == [] then registers
    else Apply(registers, writes[..|writes| - 1])[writes[|writes| - 1].path := writes[|writes| - 1].value]
  }

  /** The last value written to a path, if any. */
  function Last(writes: seq<Write>, p: Path): Option<Value> {
    if writes == [] then None
    else if writes[|writes| - 1].path == p then Some(writes[|writes| - 1].value)
    else Last(writes[..|writes| - 1], p)
  }

  function At(registers: Registers, p: Path): Option<Value> {
    if p in registers then Some(registers[p]) else None
  }

  lemma {:induction false} ApplyAt(registers: Registers, writes: seq<Write>, p: Path)
    ensures At(Apply(registers, writes), p) == if Last(writes, p).Some? then Last(writes, p) else At(registers, p)
  {
    if writes != [] {
      ApplyAt(registers, writes[..|writes| - 1], p);
    }
  }

  lemma {:induction false} LastIsWritten(writes: seq<Write>, p: Path)
    ensures Last(writes, p).Some? <==> exists w :: w in writes && w.path == p
    ensures Last(writes, p).Some? ==> Write(p, Last(writes, p).value) in writes
  {
    if writes != [] {
      var shorter, w := writes[..|writes| - 1], writes[|writes| - 1];
      assert writes == shorter + [w];
      LastIsWritten(shorter, p);
    }
  }

  // The quieted plan

  /** The volume a report gives back, if it gives one. */
  function Usable(report: Value): Option<Value> {
    match report
    case Level(db) => Some(Level(db))
    case Silence => Some(Level(LEVEL_MIN))
    case _ => None
  }

  /** The outputs that reported a usable volume, in order. */
  function Reporting(outputs: seq<nat>, seen: Registers): seq<nat> {
    if outputs == [] then []
    else
      var o := outputs[|outputs| - 1];
      var before := Reporting(outputs[..|outputs| - 1], seen);
      if Volume(o) in seen && Usable(seen[Volume(o)]).Some? then before + [o] else before
  }

  lemma {:induction false} ReportingOnes(outputs: seq<nat>, seen: Registers, o: nat)
    ensures o in Reporting(outputs, seen) <==> o in outputs && Volume(o) in seen && Usable(seen[Volume(o)]).Some?
  {
    if outputs != [] {
      ReportingOnes(outputs[..|outputs| - 1], seen, o);
      assert outputs == outputs[..|outputs| - 1] + [outputs[|outputs| - 1]];
    }
  }

  function Quieting(volumes: seq<nat>): (writes: seq<Write>)
    ensures |writes| == |volumes| && forall k :: 0 <= k < |volumes| ==> writes[k] == Write(Volume(volumes[k]), Level(LEVEL_MIN))
  {
    seq(|volumes|, k requires 0 <= k < |volumes| => Write(Volume(volumes[k]), Level(LEVEL_MIN)))
  }

  /** What a quieted output ends at: what the plan declares for it, else what it reported. */
  function Back(writes: seq<Write>, seen: Registers, o: nat): Value
    requires Volume(o) in seen && Usable(seen[Volume(o)]).Some?
  {
    var declared := Last(writes, Volume(o));
    if declared.Some? then declared.value else Usable(seen[Volume(o)]).value
  }

  ghost predicate AllUsable(volumes: seq<nat>, seen: Registers) {
    forall k :: 0 <= k < |volumes| ==> Volume(volumes[k]) in seen && Usable(seen[Volume(volumes[k])]).Some?
  }

  function GivingBack(volumes: seq<nat>, writes: seq<Write>, seen: Registers): (back: seq<Write>)
    requires AllUsable(volumes, seen)
    ensures |back| == |volumes| && forall k :: 0 <= k < |volumes| ==> back[k] == Write(Volume(volumes[k]), Back(writes, seen, volumes[k]))
  {
    seq(|volumes|, k requires 0 <= k < |volumes| => Write(Volume(volumes[k]), Back(writes, seen, volumes[k])))
  }

  predicate IsQuieted(volumes: seq<nat>, p: Path) {
    p.Volume? && p.output in volumes
  }

  function Rest(writes: seq<Write>, volumes: seq<nat>): seq<Write> {
    if writes == [] then []
    else
      var w := writes[|writes| - 1];
      var before := Rest(writes[..|writes| - 1], volumes);
      if IsQuieted(volumes, w.path) then before else before + [w]
  }

  lemma {:induction false} RestAt(writes: seq<Write>, volumes: seq<nat>, p: Path)
    ensures Last(Rest(writes, volumes), p) == if IsQuieted(volumes, p) then None else Last(writes, p)
    ensures forall w :: w in Rest(writes, volumes) ==> !IsQuieted(volumes, w.path)
  {
    if writes != [] {
      var w := writes[|writes| - 1];
      var before := Rest(writes[..|writes| - 1], volumes);
      RestAt(writes[..|writes| - 1], volumes, p);
      assert (before + [w])[..|before|] == before;
    }
  }

  lemma QuietingAt(volumes: seq<nat>, p: Path)
    ensures Last(Quieting(volumes), p) == if IsQuieted(volumes, p) then Some(Level(LEVEL_MIN)) else None
  {
    var writes := Quieting(volumes);
    LastIsWritten(writes, p);
    if IsQuieted(volumes, p) {
      var k :| 0 <= k < |volumes| && volumes[k] == p.output;
      assert writes[k] in writes && writes[k].path == p;
    }
  }

  lemma GivingBackAt(volumes: seq<nat>, writes: seq<Write>, seen: Registers, p: Path)
    requires AllUsable(volumes, seen)
    ensures IsQuieted(volumes, p) ==>
      Volume(p.output) in seen && Usable(seen[Volume(p.output)]).Some? && Last(GivingBack(volumes, writes, seen), p) == Some(Back(writes, seen, p.output))
    ensures !IsQuieted(volumes, p) ==> Last(GivingBack(volumes, writes, seen), p).None?
  {
    var back := GivingBack(volumes, writes, seen);
    LastIsWritten(back, p);
    if IsQuieted(volumes, p) {
      var k :| 0 <= k < |volumes| && volumes[k] == p.output;
      assert back[k] in back && back[k].path == p;
    }
  }

  /** A prefix of writes that touch none of the quieted volumes leaves them where they are. */
  lemma {:induction false} Untouched(registers: Registers, writes: seq<Write>, n: nat, volumes: seq<nat>, p: Path)
    requires n <= |writes| && IsQuieted(volumes, p) && forall w :: w in writes ==> !IsQuieted(volumes, w.path)
    ensures At(Apply(registers, writes[..n]), p) == At(registers, p)
  {
    ApplyAt(registers, writes[..n], p);
    LastIsWritten(writes[..n], p);
  }

  /** How a switch came out, and how many writes each stage got through. */
  datatype Outcome =
    | ReadFailed
    | Plainly(sent: nat)
    | QuietingFailed(sent: nat)
    | InnerFailed(sent: nat, given: nat)
    | GivingBackFailed(given: nat)
    | Switched

  /** Nothing in the script fails. */
  ghost predicate Calm(answers: seq<bool>) {
    forall k :: 0 <= k < |answers| ==> !answers[k]
  }

  /** The first of n questions answered yes, or n. */
  predicate FirstYes(answers: seq<bool>, n: nat, first: nat) {
    && (forall k :: 0 <= k < first && k < |answers| ==> !answers[k])
    && first <= n && (first < n ==> first < |answers| && answers[first])
  }

  function Later(answers: seq<bool>, asked: nat): seq<bool> {
    if asked <= |answers| then answers[asked..] else []
  }

  lemma NoneAsked(answers: seq<bool>)
    ensures FirstYes(answers, 0, 0) && Later(answers, 0) == answers
  {
  }

  lemma AskedNext(answers: seq<bool>, i: nat, n: nat)
    requires FirstYes(answers, i, i) && i < n
    ensures var later := Later(answers, i);
      && Later(answers, i + 1) == (if later == [] then [] else later[1..])
      && if later != [] && later[0] then FirstYes(answers, n, i) else FirstYes(answers, i + 1, i + 1)
  {
  }

  /** Quieting is asked for, and there is a device and a plan to do it with. */
  predicate Asked(peakSafe: bool, explicit: bool, device: Option<seq<nat>>, writes: seq<Write>) {
    peakSafe && explicit && device.Some? && writes != []
  }

  /** Some output the plan changes has not reported a volume. */
  ghost predicate Lacking(device: seq<nat>, writes: seq<Write>, latest: Registers) {
    exists o :: o in device && ChangedBy(PathsOf(writes), o) && Volume(o) !in latest
  }

  /** An output of the device that the plan changes and whose report is a level or silence. */
  ghost predicate MustQuiet(device: seq<nat>, writes: seq<Write>, seen: Registers, o: nat) {
    o in device && ChangedBy(PathsOf(writes), o) && Volume(o) in seen && (seen[Volume(o)].Level? || seen[Volume(o)].Silence?)
  }

  /** How many moments of the inner send were heard: none before it, one at its start and one after each of its writes. */
  function HeardSteps(out: Outcome, rest: nat): nat {
    match out
    case InnerFailed(n, _) => n + 1
    case GivingBackFailed(_) => rest + 1
    case Switched => rest + 1
    case _ => 0
  }

  /** These outputs make no sound. */
  ghost predicate AtFloor(registers: Registers, volumes: seq<nat>) {
    forall p :: IsQuieted(volumes, p) ==> At(registers, p) == Some(Level(LEVEL_MIN))
  }

  lemma StaysAtFloor(registers: Registers, volumes: seq<nat>, w: Write)
    requires AtFloor(registers, volumes) && !IsQuieted(volumes, w.path)
    ensures AtFloor(registers[w.path := w.value], volumes)
  {
  }

  class Switch {
    var registers: Registers
    var answers: seq<bool>
    /** The registers after each write of the inner send. */
    ghost var heard: seq<Registers>

    constructor (registers: Registers, answers: seq<bool>)
      ensures this.registers == registers && this.answers == answers && heard == []
    {
      this.registers, this.answers := registers, answers;
      heard := [];
    }

    /** Whether the next write fails; once the script has run out, none does. */
    method Ask() returns (yes: bool)
      modifies `answers
      ensures yes == (old(answers) != [] && old(answers)[0])
      ensures answers == if old(answers) == [] then [] else old(answers)[1..]
    {
      yes := false;
      if answers != [] {
        yes := answers[0];
        answers := answers[1..];
      }
    }

    /** A send gets through its writes in order, up to one that fails. */
    method Send(writes: seq<Write>) returns (sent: nat)
      modifies `registers, `answers
      ensures sent <= |writes| && registers == Apply(old(registers), writes[..sent])
      ensures FirstYes(old(answers), |writes|, sent) && answers == Later(old(answers), if sent < |writes| then sent + 1 else sent)
      ensures Calm(old(answers)) ==> sent == |writes| && Calm(answers)
    {
      hide FirstYes, Later;
      assert writes[..0] == [];
      NoneAsked(answers);
      for i := 0 to |writes|
        invariant registers == Apply(old(registers), writes[..i])
        invariant answers == Later(old(answers), i) && FirstYes(old(answers), i, i)
        invariant Calm(old(answers)) ==> Calm(answers)
      {
        AskedNext(old(answers), i, |writes|);
        var fails := Ask();
        if fails {
          return i;
        }
        assert writes[..i + 1][..i] == writes[..i];
        registers := registers[writes[i].path := writes[i].value];
      }
      sent := |writes|;
    }

    /** The same between quieted outputs, with what is heard on the way. */
    method SendHeard(writes: seq<Write>, volumes: seq<nat>) returns (sent: nat)
      requires forall w :: w in writes ==> !IsQuieted(volumes, w.path)
      requires AtFloor(registers, volumes)
      modifies `registers, `answers, `heard
      ensures sent <= |writes| && registers == Apply(old(registers), writes[..sent])
      ensures |heard| == |old(heard)| + sent + 1 && old(heard) <= heard
      ensures forall k :: 0 <= k <= sent ==> heard[|old(heard)| + k] == Apply(old(registers), writes[..k])
      ensures forall k :: |old(heard)| <= k < |heard| ==> AtFloor(heard[k], volumes)
      ensures FirstYes(old(answers), |writes|, sent) && answers == Later(old(answers), if sent < |writes| then sent + 1 else sent)
      ensures Calm(old(answers)) ==> sent == |writes| && Calm(answers)
    {
      hide FirstYes, Later, IsQuieted, AtFloor;
      assert writes[..0] == [];
      NoneAsked(answers);
      heard := heard + [registers];
      for i := 0 to |writes|
        invariant registers == Apply(old(registers), writes[..i])
        invariant answers == Later(old(answers), i) && FirstYes(old(answers), i, i)
        invariant |heard| == |old(heard)| + i + 1 && old(heard) <= heard
        invariant forall k :: 0 <= k <= i ==> heard[|old(heard)| + k] == Apply(old(registers), writes[..k])
        invariant Calm(old(answers)) ==> Calm(answers)
        invariant AtFloor(registers, volumes)
        invariant forall k :: |old(heard)| <= k < |heard| ==> AtFloor(heard[k], volumes)
      {
        AskedNext(old(answers), i, |writes|);
        var fails := Ask();
        if fails {
          return i;
        }
        assert writes[i] in writes;
        StaysAtFloor(registers, volumes, writes[i]);
        assert writes[..i + 1][..i] == writes[..i];
        registers := registers[writes[i].path := writes[i].value];
        heard := heard + [registers];
      }
      sent := |writes|;
    }

    /**
     * Send a plan; where quieting is asked for, with the changed outputs down for its length.
     * `readBack` is what asking for the missing volumes brings, if it works at all.
     */
    method SendQuietly(peakSafe: bool, explicit: bool, device: Option<seq<nat>>, writes: seq<Write>, latest: Registers, readBack: Option<Registers>)
        returns (out: Outcome, volumes: seq<nat>, ghost seen: Registers)
      requires device.Some? ==> forall j, k :: 0 <= j < k < |device.value| ==> device.value[j] < device.value[k]
      modifies this
      ensures AllUsable(volumes, seen)
      ensures Asked(peakSafe, explicit, device, writes) && Lacking(device.value, writes, latest) && readBack.None? <==> out.ReadFailed?
      ensures Asked(peakSafe, explicit, device, writes) && !out.ReadFailed? ==>
        seen == if Lacking(device.value, writes, latest) then latest + readBack.value else latest
      ensures forall o :: o in volumes <==>
        Asked(peakSafe, explicit, device, writes) && !out.ReadFailed? && MustQuiet(device.value, writes, seen, o)
      ensures forall j, k :: 0 <= j < k < |volumes| ==> volumes[j] < volumes[k]
      ensures !out.ReadFailed? ==> (out.Plainly? <==> volumes == [])
      ensures Ended(out, old(registers), registers, volumes, writes, seen)
      ensures Calm(old(answers)) ==> out in {ReadFailed, Plainly(|writes|), Switched}
      ensures old(heard) <= heard
      ensures forall k :: |old(heard)| <= k < |heard| ==> AtFloor(heard[k], volumes)
      ensures |heard| == |old(heard)| + HeardSteps(out, |Rest(writes, volumes)|)
    {
      hide Apply, Rest, GivingBack, Quieting, IsQuieted, At, Reporting, ChangedBy, Calm;
      volumes, seen := [], latest;
      if !peakSafe || !explicit || device.None? || writes == [] {
        var n := Send(writes);
        return Plainly(n), volumes, seen;
      }
      var outputs := ChangedOutputs(PathsOf(writes), device.value);
      var known := latest;
      if exists o <- outputs :: Volume(o) !in known {
        if readBack.None? {
          return ReadFailed, volumes, seen;
        }
        known := known + readBack.value;
      }
      seen := known;
      volumes := Reporting(outputs, known);
      ReportingUsable(outputs, known);
      ReportingSorted(outputs, known);
      forall o ensures o in volumes <==> MustQuiet(device.value, writes, seen, o) {
        ReportingOnes(outputs, known, o);
      }
      if volumes == [] {
        var n := Send(writes);
        return Plainly(n), volumes, seen;
      }
      assert volumes[0] in volumes;
      out := Between(volumes, writes, known);
    }

    /** Down, the rest of the plan, and back up; back up also where the plan gave out. */
    method Between(volumes: seq<nat>, writes: seq<Write>, seen: Registers) returns (out: Outcome)
      requires AllUsable(volumes, seen)
      modifies this
      ensures !out.ReadFailed? && !out.Plainly?
      ensures Ended(out, old(registers), registers, volumes, writes, seen)
      ensures Calm(old(answers)) ==> out.Switched?
      ensures |heard| == |old(heard)| + HeardSteps(out, |Rest(writes, volumes)|)
      ensures old(heard) <= heard
      ensures forall k :: |old(heard)| <= k < |heard| ==> AtFloor(heard[k], volumes)
    {
      hide Apply, Rest, GivingBack, Quieting, IsQuieted, AllUsable, At, Calm;
      ghost var before := registers;
      var quiet := Quieting(volumes);
      var n := Send(quiet);
      if n < |quiet| {
        return QuietingFailed(n);
      }
      assert quiet[..|quiet|] == quiet;
      QuietedAtFloor(before, volumes);
      RestUntouched(writes, volumes);
      var rest := Rest(writes, volumes);
      n := SendHeard(rest, volumes);
      var back := GivingBack(volumes, writes, seen);
      var k := Send(back);
      if n < |rest| {
        return InnerFailed(n, k);
      }
      assert rest[..|rest|] == rest;
      if k < |back| {
        return GivingBackFailed(k);
      }
      assert back[..|back|] == back;
      out := Switched;
    }
  }

  /** Where each way out of a switch leaves the registers. */
  ghost predicate Ended(out: Outcome, before: Registers, after: Registers, volumes: seq<nat>, writes: seq<Write>, seen: Registers)
    requires AllUsable(volumes, seen)
  {
    match out
    case ReadFailed => after == before
    case Plainly(n) => n <= |writes| && after == Apply(before, writes[..n])
    case QuietingFailed(n) => n < |volumes| && after == Apply(before, Quieting(volumes)[..n])
    case InnerFailed(n, k) =>
      n < |Rest(writes, volumes)| && k <= |volumes|
      && after == Apply(Apply(Quieted(before, volumes), Rest(writes, volumes)[..n]), GivingBack(volumes, writes, seen)[..k])
    case GivingBackFailed(k) =>
      k < |volumes|
      && after == Apply(Apply(Quieted(before, volumes), Rest(writes, volumes)), GivingBack(volumes, writes, seen)[..k])
    case Switched => after == BetweenQuieted(before, volumes, writes, seen)
  }

  function PathsOf(writes: seq<Write>): (paths: seq<Path>)
    ensures |paths| == |writes| && forall k :: 0 <= k < |writes| ==> paths[k] == writes[k].path
  {
    seq(|writes|, k requires 0 <= k < |writes| => writes[k].path)
  }

  function Quieted(registers: Registers, volumes: seq<nat>): Registers {
    Apply(registers, Quieting(volumes))
  }

  function BetweenQuieted(registers: Registers, volumes: seq<nat>, writes: seq<Write>, seen: Registers): Registers
    requires AllUsable(volumes, seen)
  {
    Apply(Apply(Quieted(registers, volumes), Rest(writes, volumes)), GivingBack(volumes, writes, seen))
  }

  lemma ReportingUsable(outputs: seq<nat>, seen: Registers)
    ensures AllUsable(Reporting(outputs, seen), seen)
  {
    var volumes := Reporting(outputs, seen);
    forall k | 0 <= k < |volumes| ensures Volume(volumes[k]) in seen && Usable(seen[Volume(volumes[k])]).Some? {
      assert volumes[k] in volumes;
      ReportingOnes(outputs, seen, volumes[k]);
    }
  }

  lemma {:induction false} ReportingSorted(outputs: seq<nat>, seen: Registers)
    requires forall j, k :: 0 <= j < k < |outputs| ==> outputs[j] < outputs[k]
    ensures forall j, k :: 0 <= j < k < |Reporting(outputs, seen)| ==> Reporting(outputs, seen)[j] < Reporting(outputs, seen)[k]
  {
    if outputs != [] {
      var n := |outputs| - 1;
      ReportingSorted(outputs[..n], seen);
      var before := Reporting(outputs[..n], seen);
      forall j | 0 <= j < |before| ensures before[j] < outputs[n] {
        assert before[j] in before;
        ReportingOnes(outputs[..n], seen, before[j]);
      }
    }
  }

  lemma QuietedAtFloor(registers: Registers, volumes: seq<nat>)
    ensures forall p :: IsQuieted(volumes, p) ==> At(Quieted(registers, volumes), p) == Some(Level(LEVEL_MIN))
  {
    forall p | IsQuieted(volumes, p) ensures At(Quieted(registers, volumes), p) == Some(Level(LEVEL_MIN)) {
      ApplyAt(registers, Quieting(volumes), p);
      QuietingAt(volumes, p);
    }
  }

  lemma RestUntouched(writes: seq<Write>, volumes: seq<nat>)
    ensures forall w :: w in Rest(writes, volumes) ==> !IsQuieted(volumes, w.path)
  {
    RestAt(writes, volumes, Other(""));
  }

  /**
   * A switch that completes leaves every register as the plain one would, except that a quieted
   * volume the plan does not declare ends at what it reported.
   */
  lemma SwitchRefinesPlain(registers: Registers, volumes: seq<nat>, writes: seq<Write>, seen: Registers, p: Path)
    requires AllUsable(volumes, seen)
    ensures IsQuieted(volumes, p) && Last(writes, p).None? ==>
      && Volume(p.output) in seen && At(BetweenQuieted(registers, volumes, writes, seen), p) == Usable(seen[Volume(p.output)])
      && match seen[Volume(p.output)]
         case Level(db) => At(BetweenQuieted(registers, volumes, writes, seen), p) == Some(Level(db))
         case Silence => At(BetweenQuieted(registers, volumes, writes, seen), p) == Some(Level(-65.0))
         case _ => false
    ensures !(IsQuieted(volumes, p) && Last(writes, p).None?) ==>
      At(BetweenQuieted(registers, volumes, writes, seen), p) == At(Apply(registers, writes), p)
  {
    var quieted := Quieted(registers, volumes);
    var rest := Rest(writes, volumes);
    ApplyAt(registers, Quieting(volumes), p);
    QuietingAt(volumes, p);
    ApplyAt(quieted, rest, p);
    RestAt(writes, volumes, p);
    ApplyAt(Apply(quieted, rest), GivingBack(volumes, writes, seen), p);
    GivingBackAt(volumes, writes, seen, p);
    ApplyAt(registers, writes, p);
  }

  /** Where the reports were true, a completed switch is the plain one. */
  lemma TrueReportsMakeItPlain(registers: Registers, volumes: seq<nat>, writes: seq<Write>, seen: Registers)
    requires AllUsable(volumes, seen)
    requires forall k :: 0 <= k < |volumes| ==> At(registers, Volume(volumes[k])) == Usable(seen[Volume(volumes[k])])
    ensures BetweenQuieted(registers, volumes, writes, seen) == Apply(registers, writes)
  {
    hide BetweenQuieted, Apply, Last;
    var a, b := BetweenQuieted(registers, volumes, writes, seen), Apply(registers, writes);
    forall p ensures At(a, p) == At(b, p) {
      SwitchRefinesPlain(registers, volumes, writes, seen, p);
      ApplyAt(registers, writes, p);
      if IsQuieted(volumes, p) {
        var k :| 0 <= k < |volumes| && volumes[k] == p.output;
      }
    }
    assert forall p :: p in a <==> p in b by {
      forall p ensures p in a <==> p in b {
        assert At(a, p) == At(b, p);
      }
    }
    assert forall p :: p in a ==> a[p] == b[p] by {
      forall p | p in a ensures a[p] == b[p] {
        assert At(a, p) == At(b, p);
      }
    }
  }

  /**
   * After an inner send that failed anywhere, a volume given back in full ends as declared, else as
   * reported; every other register is where the plan had got to.
   */
  lemma FailedSwitchGivesBack(registers: Registers, volumes: seq<nat>, writes: seq<Write>, seen: Registers, n: nat, p: Path)
    requires AllUsable(volumes, seen) && n <= |Rest(writes, volumes)|
    ensures var ended := Apply(Apply(Quieted(registers, volumes), Rest(writes, volumes)[..n]), GivingBack(volumes, writes, seen));
      if IsQuieted(volumes, p) then
        Volume(p.output) in seen && Usable(seen[Volume(p.output)]).Some? && At(ended, p) == Some(Back(writes, seen, p.output))
      else At(ended, p) == At(Apply(registers, Rest(writes, volumes)[..n]), p)
  {
    var quieted := Quieted(registers, volumes);
    var rest := Rest(writes, volumes)[..n];
    ApplyAt(registers, Quieting(volumes), p);
    QuietingAt(volumes, p);
    ApplyAt(quieted, rest, p);
    ApplyAt(registers, rest, p);
    ApplyAt(Apply(quieted, rest), GivingBack(volumes, writes, seen), p);
    GivingBackAt(volumes, writes, seen, p);
  }

  /**
   * A failure while the outputs are still being pulled down gives nothing back: exactly the ones
   * already reached stay at the floor.
   */
  lemma FailedQuietingGivesNothingBack(registers: Registers, volumes: seq<nat>, n: nat, p: Path)
    requires n <= |volumes|
    ensures At(Apply(registers, Quieting(volumes)[..n]), p) ==
      if IsQuieted(volumes[..n], p) then Some(Level(LEVEL_MIN)) else At(registers, p)
  {
    assert Quieting(volumes)[..n] == Quieting(volumes[..n]);
    ApplyAt(registers, Quieting(volumes[..n]), p);
    QuietingAt(volumes[..n], p);
  }

  /** Such a failure leaves no volume down exactly when no output it reached was above the floor. */
  lemma VolumesStayDownExactly(registers: Registers, volumes: seq<nat>, n: nat)
    requires n <= |volumes|
    ensures (forall p :: At(Apply(registers, Quieting(volumes)[..n]), p) == At(registers, p)) <==>
      forall k :: 0 <= k < n ==> At(registers, Volume(volumes[k])) == Some(Level(LEVEL_MIN))
  {
    forall p {
      FailedQuietingGivesNothingBack(registers, volumes, n, p);
    }
    forall k | 0 <= k < n && At(registers, Volume(volumes[k])) != Some(Level(LEVEL_MIN))
      ensures At(Apply(registers, Quieting(volumes)[..n]), Volume(volumes[k])) != At(registers, Volume(volumes[k]))
    {
      assert volumes[..n][k] == volumes[k];
      assert IsQuieted(volumes[..n], Volume(volumes[k]));
    }
  }

  /**
   * Two outputs at -10 and -12 dB, as reported, and a quieting send that gets through its first write
   * only: the first output stays at the floor, the second where it was.
   */
  lemma OneOutputStaysDown(writes: seq<Write>)
    ensures var before: Registers := map[Volume(1) := Level(-10.0), Volume(2) := Level(-12.0)];
      var after: Registers := map[Volume(1) := Level(LEVEL_MIN), Volume(2) := Level(-12.0)];
      && AllUsable([1, 2], before) && Ended(QuietingFailed(1), before, after, [1, 2], writes, before)
      && At(after, Volume(1)) != At(before, Volume(1)) && At(after, Volume(2)) == At(before, Volume(2))
  {
    var before: Registers := map[Volume(1) := Level(-10.0), Volume(2) := Level(-12.0)];
    var quiet := Quieting([1, 2])[..1];
    assert quiet == [Write(Volume(1), Level(LEVEL_MIN))] && quiet[..0] == [];
    assert Apply(before, quiet[..0]) == before;
    assert Apply(before, quiet) == before[Volume(1) := Level(LEVEL_MIN)];
    assert before[Volume(1) := Level(LEVEL_MIN)] == map[Volume(1) := Level(LEVEL_MIN), Volume(2) := Level(-12.0)];
  }
}
